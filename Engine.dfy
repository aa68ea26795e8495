/**
 * The turn engine of the final revision of the game (class `Game`): the
 * source word's letter budget, the word filter, the command interpreter,
 * the retry loop of one turn, the alternation of turns and the winner by
 * parity, and the ordering of the leaderboard.
 *
 * Inputs are already lower-cased and trimmed. A turn is driven by a script
 * of events: at each pass of the turn loop, how many milliseconds of the
 * turn had elapsed at the clock check, and what the timed read returned
 * (`None` when it timed out). A script that runs out stands for the clock
 * passing the deadline.
 */
module Engine {
  import opened Wrappers
  import opened Counting
  import opened Letters
  import opened Rules
  import opened Results
  import opened Repository

  /** Seconds allowed for one turn. */
  const InputTimeLimit: int := 20

  datatype Player = Player(name: string)

  /** Input beginning with the command marker `/`. */
  predicate IsCommand(s: string) {
    |s| > 0 && s[0] == '/'
  }

  /**
   * The word prompt. A timed-out read stays absent; a command passes
   * unchanged; any other input passes only if the dictionary holds it and
   * is replaced by the empty string otherwise.
   */
  function AskWord(line: Option<string>, lexicon: set<string>): (r: Option<string>)
    ensures r.None? <==> line.None?
    ensures r.Some? && r.value != "" ==> r == line && (IsCommand(r.value) || r.value in lexicon)
    ensures line.Some? && (IsCommand(line.value) || line.value in lexicon) ==> r == line
  {
    match line
    case None => None
    case Some(input) =>
      if IsCommand(input) then line
      else if input !in lexicon then Some("")
      else line
  }

  /** What a recognised or unrecognised command does besides printing. */
  datatype Action = Help | ShowWords | Score | TotalScore | WrongCommand

  /** The three answers of the command interpreter: not a command, a command carried out, or the exit command. */
  datatype CommandResult = NoCommand | Executed(action: Action) | Exit

  const KnownCommands: set<string> := {"/help", "/show-words", "/score", "/total-score", "/exit"}

  /**
   * The command interpreter. Input without the marker is no command;
   * "/exit" ends the game; every other marked input, known or not, is
   * carried out (an unknown one by printing an error) and the turn goes on.
   */
  function HandleCommand(input: string): (r: CommandResult)
    ensures r.NoCommand? <==> !IsCommand(input)
    ensures r.Exit? <==> input == "/exit"
    ensures r.Executed? <==> IsCommand(input) && input != "/exit"
    ensures r == Executed(WrongCommand) <==> IsCommand(input) && input !in KnownCommands
  {
    if !IsCommand(input) then NoCommand
    else if input == "/help" then Executed(Help)
    else if input == "/show-words" then Executed(ShowWords)
    else if input == "/score" then Executed(Score)
    else if input == "/total-score" then Executed(TotalScore)
    else if input == "/exit" then Exit
    else Executed(WrongCommand)
  }

  /** Why a pass of the turn loop asks again. `Blank`: an empty line, or a word the prompt found missing from the dictionary. */
  datatype Rejection = Blank | CommandRun(action: Action) | Reused | LetterError(verdict: Verdict)

  /** The effect of one pass of the turn loop. `ReadFaulted` is the null dereference of the code as written. */
  datatype StepResult =
    | ClockExpired
    | ReadTimedOut
    | ReadFaulted
    | ExitRequested
    | Retry(why: Rejection)
    | Accepted(word: string)

  /** The pass ends the turn, and with it the game. */
  predicate EndsTurn(r: StepResult) {
    r.ClockExpired? || r.ReadTimedOut? || r.ExitRequested?
  }


  /** A word that may enter the attempt log: non-empty, not a command, in the dictionary, and made of the source word's letters. */
  predicate Playable(w: string, originalWord: string, lexicon: set<string>) {
    w != "" && !IsCommand(w) && w in lexicon && multiset(w) <= multiset(originalWord)
  }

  /** The attempt log of a game: no word twice, every word playable. */
  predicate LogOk(log: seq<string>, originalWord: string, lexicon: set<string>) {
    NoDuplicates(log) && forall i :: 0 <= i < |log| ==> Playable(log[i], originalWord, lexicon)
  }

  /** Logging a new playable word keeps the attempt log well formed. */
  lemma LogOkSnoc(log: seq<string>, w: string, originalWord: string, lexicon: set<string>)
    requires LogOk(log, originalWord, lexicon)
    requires w !in log && Playable(w, originalWord, lexicon)
    ensures LogOk(log + [w], originalWord, lexicon)
  {
    var l := log + [w];
    assert forall i :: 0 <= i < |log| ==> l[i] == log[i];
  }

  /** What the turn loop does with a line the prompt returned. */
  function Dispatch(input: string, attempts: seq<string>, budget: map<char, nat>): (r: StepResult)
    ensures !r.ClockExpired? && !r.ReadTimedOut? && !r.ReadFaulted?
    ensures r.ExitRequested? <==> input == "/exit"
    ensures r.Accepted? ==> r.word == input && input != "" && !IsCommand(input) && input !in attempts
    ensures r == Retry(Reused) ==> input in attempts
  {
    if input == "" then Retry(Blank)
    else match HandleCommand(input)
      case Executed(action) => Retry(CommandRun(action))
      case Exit => ExitRequested
      case NoCommand =>
        if input in attempts then Retry(Reused)
        else
          var verdict := Judge(Distinct(input), Tally(input), budget);
          if verdict.Fits? then Accepted(input) else Retry(LetterError(verdict))
  }

  /** One pass of the turn loop, with the timed-out read handled before the command interpreter sees the input. */
  function Step(ev: Event, attempts: seq<string>, budget: map<char, nat>, lexicon: set<string>): (r: StepResult)
    ensures r.ClockExpired? <==> ev.elapsedMs >= InputTimeLimit * 1000
    ensures r.ReadTimedOut? <==> ev.elapsedMs < InputTimeLimit * 1000 && ev.line.None?
    ensures !r.ReadFaulted?
    ensures r.Accepted? ==> ev.line == Some(r.word) && r.word !in attempts
  {
    if IsTimeOver(RemainingMs(InputTimeLimit, ev.elapsedMs)).OutOfTime? then ClockExpired
    else match AskWord(ev.line, lexicon)
      case None => ReadTimedOut
      case Some(input) => Dispatch(input, attempts, budget)
  }

  /**
   * One pass of the turn loop in the order the code runs it: the command
   * interpreter is called on the prompt's result before that result is
   * compared with null, so a timed-out read dereferences null.
   */
  function StepAsWritten(ev: Event, attempts: seq<string>, budget: map<char, nat>, lexicon: set<string>): (r: StepResult)
    ensures r.ClockExpired? <==> ev.elapsedMs >= InputTimeLimit * 1000
    ensures r.ReadFaulted? <==> ev.elapsedMs < InputTimeLimit * 1000 && ev.line.None?
    ensures !r.ReadTimedOut?
  {
    if IsTimeOver(RemainingMs(InputTimeLimit, ev.elapsedMs)).OutOfTime? then ClockExpired
    else match AskWord(ev.line, lexicon)
      case None => ReadFaulted
      case Some(input) => Dispatch(input, attempts, budget)
  }

  /** The code as written and the corrected order differ exactly on a read that times out while the clock still runs. */
  lemma TimedOutReadFaults(ev: Event, attempts: seq<string>, budget: map<char, nat>, lexicon: set<string>)
    ensures StepAsWritten(ev, attempts, budget, lexicon) != Step(ev, attempts, budget, lexicon)
        <==> ClockRunning(InputTimeLimit, ev) && ev.line.None?
    ensures ClockRunning(InputTimeLimit, ev) && ev.line.None? ==>
      StepAsWritten(ev, attempts, budget, lexicon) == ReadFaulted && Step(ev, attempts, budget, lexicon) == ReadTimedOut
  {
  }

  /** A concrete case: the clock check at 5 s of 20 passes, then the read times out. */
  lemma TimedOutReadFaultsExample(attempts: seq<string>, budget: map<char, nat>, lexicon: set<string>)
    ensures StepAsWritten(Event(5000, None), attempts, budget, lexicon) == ReadFaulted
  {
    assert IsTimeOver(RemainingMs(InputTimeLimit, 5000)) == TimeLeft(15);
  }

  /**
   * A pass accepts a word exactly when the clock still runs, the word was
   * read, it is not in the attempt log yet, and it is playable.
   */
  lemma StepAcceptsPlayable(ev: Event, attempts: seq<string>, originalWord: string, lexicon: set<string>, w: string)
    ensures Step(ev, attempts, Tally(originalWord), lexicon) == Accepted(w)
        <==> ClockRunning(InputTimeLimit, ev) && ev.line == Some(w) && w !in attempts && Playable(w, originalWord, lexicon)
  {
    JudgeLetters(w, Tally(originalWord));
    WithinLettersOf(w, originalWord);
    if Step(ev, attempts, Tally(originalWord), lexicon) == Accepted(w) {
      assert AskWord(ev.line, lexicon) == Some(w);
    }
  }

  /** A pass ends the turn exactly when the clock has run out, the read timed out, or the player typed "/exit". */
  lemma StepEndsTurn(ev: Event, attempts: seq<string>, budget: map<char, nat>, lexicon: set<string>)
    ensures EndsTurn(Step(ev, attempts, budget, lexicon))
        <==> !ClockRunning(InputTimeLimit, ev) || ev.line.None? || ev.line == Some("/exit")
  {
    if ClockRunning(InputTimeLimit, ev) && ev.line.Some? && ev.line.value != "/exit" {
      var input := AskWord(ev.line, lexicon).value;
      assert input != "/exit";
    }
  }

  /**
   * A turn from event `from` on: passes that ask again are skipped, and the
   * first pass that does not decides the turn. The result is the index of
   * that event and the word it accepted, or none when it ended the turn or the
   * script ran out.
   */
  function TurnFrom(events: seq<Event>, log: seq<string>, budget: map<char, nat>, lexicon: set<string>, from: nat): (r: Option<(nat, string)>)
    requires from <= |events|
    ensures r.Some? ==> from <= r.value.0 < |events| && Step(events[r.value.0], log, budget, lexicon) == Accepted(r.value.1)
    decreases |events| - from
  {
    if from == |events| then None
    else match Step(events[from], log, budget, lexicon)
      case Retry(_) => TurnFrom(events, log, budget, lexicon, from + 1)
      case Accepted(w) => Some((from, w))
      case _ => None
  }

  /** A turn of this revision: the turn from the first event of the script on. */
  function TurnOf(budget: map<char, nat>, lexicon: set<string>): Turn {
    (events, log) => TurnFrom(events, log, budget, lexicon, 0)
  }

  /** The round of this revision from the turn of `toMove` on: turns of `TurnOf` alternate until one fails. */
  function Round(events: seq<Event>, log: seq<string>, toMove: Seat, budget: map<char, nat>, lexicon: set<string>): (seq<string>, Seat) {
    Alternate(TurnOf(budget, lexicon), events, log, toMove)
  }

  /** The words the attempt log may hold. */
  function PlayableIn(originalWord: string, lexicon: set<string>): string -> bool {
    w => Playable(w, originalWord, lexicon)
  }

  /** Against the source word's letters, a turn is decided by an event of its script and accepts only new words that may enter the log. */
  lemma TurnOfAccepts(originalWord: string, lexicon: set<string>)
    ensures WithinScript(TurnOf(Tally(originalWord), lexicon))
    ensures AcceptsOnly(TurnOf(Tally(originalWord), lexicon), PlayableIn(originalWord, lexicon))
  {
    var turn := TurnOf(Tally(originalWord), lexicon);
    forall events, log | turn(events, log).Some?
      ensures turn(events, log).value.0 < |events|
      ensures turn(events, log).value.1 !in log && PlayableIn(originalWord, lexicon)(turn(events, log).value.1)
    {
      var k, w := turn(events, log).value.0, turn(events, log).value.1;
      StepAcceptsPlayable(events[k], log, originalWord, lexicon, w);
    }
  }

  /** A round keeps the attempt log well formed and only extends it, by at most one word per event. */
  lemma RoundKeepsLog(events: seq<Event>, log: seq<string>, toMove: Seat, originalWord: string, lexicon: set<string>)
    requires LogOk(log, originalWord, lexicon)
    ensures LogOk(Round(events, log, toMove, Tally(originalWord), lexicon).0, originalWord, lexicon)
    ensures |log| <= |Round(events, log, toMove, Tally(originalWord), lexicon).0| <= |log| + |events|
    ensures Round(events, log, toMove, Tally(originalWord), lexicon).0[..|log|] == log
  {
    var ok := PlayableIn(originalWord, lexicon);
    TurnOfAccepts(originalWord, lexicon);
    AlternateKeepsLog(TurnOf(Tally(originalWord), lexicon), ok, events, log, toMove);
  }

  /** A pass that asks again leaves the turn to the later events: one more pass of the loop has asked again. */
  lemma TurnFromRetry(events: seq<Event>, log: seq<string>, budget: map<char, nat>, lexicon: set<string>, i: nat)
    requires i < |events| && Step(events[i], log, budget, lexicon).Retry?
    requires forall k :: 0 <= k < i ==> Step(events[k], log, budget, lexicon).Retry?
    requires TurnFrom(events, log, budget, lexicon, i) == TurnFrom(events, log, budget, lexicon, 0)
    ensures forall k :: 0 <= k < i + 1 ==> Step(events[k], log, budget, lexicon).Retry?
    ensures TurnFrom(events, log, budget, lexicon, i + 1) == TurnFrom(events, log, budget, lexicon, 0)
  {
  }

  /** A turn that takes a word hands the rest of the script to the opponent. */
  lemma RoundTakes(events: seq<Event>, log: seq<string>, toMove: Seat, budget: map<char, nat>, lexicon: set<string>, k: nat, w: string)
    requires TurnFrom(events, log, budget, lexicon, 0) == Some((k, w))
    ensures k < |events|
    ensures Round(events, log, toMove, budget, lexicon) == Round(events[k + 1..], log + [w], Opponent(toMove), budget, lexicon)
  {
  }

  /** A turn that takes no word ends the round with the player to move failing. */
  lemma RoundStops(events: seq<Event>, log: seq<string>, toMove: Seat, budget: map<char, nat>, lexicon: set<string>)
    requires TurnFrom(events, log, budget, lexicon, 0).None?
    ensures Round(events, log, toMove, budget, lexicon) == (log, toMove)
  {
  }

  /** The winner's name by the parity rule; always one of the two players. */
  function WinnerName(attemptCount: nat, player1: Player, player2: Player): (w: string)
    ensures w == player1.name || w == player2.name
  {
    if WinnerSeat(attemptCount) == Second then player2.name else player1.name
  }

  /** Leaderboard entries are ordered by wins, most first. */
  predicate ByWinsDescending(entries: seq<(string, nat)>) {
    forall i, j :: 0 <= i < j < |entries| ==> entries[i].1 >= entries[j].1
  }

  /** The first position whose entry has fewer wins than `e`: everything before it has at least as many. */
  function InsertionPoint(e: (string, nat), sorted: seq<(string, nat)>): (k: nat)
    ensures k <= |sorted|
    ensures forall i :: 0 <= i < k ==> sorted[i].1 >= e.1
    ensures k < |sorted| ==> sorted[k].1 < e.1
  {
    if sorted == [] || sorted[0].1 < e.1 then 0
    else 1 + InsertionPoint(e, sorted[1..])
  }

  /** Insert an entry after every entry with at least as many wins, so ties keep their order. */
  function InsertByWins(e: (string, nat), sorted: seq<(string, nat)>): (r: seq<(string, nat)>)
    requires ByWinsDescending(sorted)
    ensures ByWinsDescending(r)
    ensures multiset(r) == multiset(sorted) + multiset{e}
    ensures |r| == |sorted| + 1
  {
    var k := InsertionPoint(e, sorted);
    assert sorted == sorted[..k] + sorted[k..];
    InsertionKeepsOrder(e, sorted, k);
    sorted[..k] + [e] + sorted[k..]
  }

  /** Putting `e` at its insertion point keeps a descending list descending. */
  lemma InsertionKeepsOrder(e: (string, nat), sorted: seq<(string, nat)>, k: nat)
    requires ByWinsDescending(sorted)
    requires k == InsertionPoint(e, sorted)
    ensures ByWinsDescending(sorted[..k] + [e] + sorted[k..])
  {
    var r := sorted[..k] + [e] + sorted[k..];
    assert forall i :: 0 <= i < |r| ==> r[i] == (if i < k then sorted[i] else if i == k then e else sorted[i - 1]);
  }

  /** The order of the leaderboard: by wins, most first; the entries are those given, each as often as given. */
  function OrderByWins(entries: seq<(string, nat)>): (r: seq<(string, nat)>)
    ensures ByWinsDescending(r)
    ensures multiset(r) == multiset(entries)
  {
    if entries == [] then []
    else
      var init, last := entries[..|entries| - 1], entries[|entries| - 1];
      assert entries == init + [last];
      InsertByWins(last, OrderByWins(init))
  }

  /** The rows of the table before ordering: each name of the enumeration with its score. */
  function ScoreRows(scores: map<string, nat>, order: seq<string>): (rows: seq<(string, nat)>)
    requires forall n :: n in order ==> n in scores
    ensures |rows| == |order|
    ensures forall i :: 0 <= i < |order| ==> rows[i] == (order[i], scores[order[i]])
  {
    seq(|order|, i requires 0 <= i < |order| => (order[i], scores[order[i]]))
  }

  /** The table of best players for a score dictionary enumerated in `order`: every listed name with its score, most wins first. */
  function TableOfBestPlayers(scores: map<string, nat>, order: seq<string>): (r: seq<(string, nat)>)
    requires NoDuplicates(order) && forall n :: n in scores <==> n in order
    ensures ByWinsDescending(r)
    ensures multiset(r) == multiset(ScoreRows(scores, order))
    ensures |r| == |order|
    ensures forall n :: n in scores ==> (n, scores[n]) in r
    ensures forall e :: e in r ==> e.0 in scores && e.1 == scores[e.0]
  {
    var entries := ScoreRows(scores, order);
    var r := OrderByWins(entries);
    assert forall e :: e in r ==> e in multiset(entries);
    assert |r| == |multiset(r)| == |multiset(entries)| == |entries|;
    forall n | n in scores ensures (n, scores[n]) in r {
      var i :| 0 <= i < |order| && order[i] == n;
      assert entries[i] in multiset(entries);
    }
    r
  }

  class Game {
    const repository: DataRepository
    /** The source word of the round. */
    var originalWord: string
    /** The source word's letter budget, computed once per round. */
    var originalWordLetters: map<char, nat>
    /** The words accepted so far, in order. */
    var attempts: seq<string>

    /** The letter budget belongs to the source word, and the attempt log is well formed. */
    ghost predicate Valid()
      reads this
    {
      originalWordLetters == Tally(originalWord) && LogOk(attempts, originalWord, repository.dictionary)
    }

    constructor (repository: DataRepository)
      ensures this.repository == repository && attempts == []
    {
      this.repository := repository;
      originalWord := "";
      originalWordLetters := map[];
      attempts := [];
    }

    /** Count each character of `word`. */
    static method GetLetterCounts(word: string) returns (counts: map<char, nat>)
      ensures counts == Tally(word)
    {
      counts := map[];
      var i := 0;
      while i < |word|
        invariant 0 <= i <= |word|
        invariant counts == Tally(word[..i])
      {
        var ch := word[i];
        ghost var seen := word[..i];
        assert word[..i + 1] == seen + [ch];
        TallySnoc(seen, ch);
        if ch in counts {
          counts := counts[ch := counts[ch] + 1];
        } else {
          counts := counts[ch := 1];
        }
        assert counts == Tally(seen + [ch]);
        i := i + 1;
      }
      assert word[..i] == word;
    }

    /**
     * Check a word against the source word's letter budget, walking its
     * letters in the order the letter dictionary enumerates them and
     * stopping at the first letter that is missing or over-used.
     */
    method IsWordValid(playerWord: string) returns (valid: bool, verdict: Verdict)
      ensures verdict == Judge(Distinct(playerWord), Tally(playerWord), originalWordLetters)
      ensures valid <==> verdict.Fits?
      ensures valid <==> WithinBudget(playerWord, originalWordLetters)
    {
      var playerWordDictionary := GetLetterCounts(playerWord);
      var keys := Distinct(playerWord);
      var validLetters: int := 0;
      verdict := Fits;
      var i := 0;
      while i < |keys|
        invariant 0 <= i <= |keys|
        invariant validLetters == SumOver(playerWordDictionary, keys[..i])
        invariant Judge(keys[i..], playerWordDictionary, originalWordLetters) == Judge(keys, playerWordDictionary, originalWordLetters)
      {
        var key := keys[i];
        DistinctKey(playerWord, i);
        var value1 := playerWordDictionary[key];
        JudgeFrom(keys, playerWordDictionary, originalWordLetters, i);
        if key in originalWordLetters {
          var value2 := originalWordLetters[key];
          if value1 > value2 {
            JudgeLetters(playerWord, originalWordLetters);
            return false, Exceeds(key);
          } else {
            SumOverStep(playerWordDictionary, keys, i);
            validLetters := validLetters + value1;
          }
        } else {
          verdict := Unavailable(key);
          validLetters := -1;
          break;
        }
        i := i + 1;
      }
      if verdict.Fits? {
        assert keys[..i] == keys;
        TallySum(playerWord);
      }
      JudgeLetters(playerWord, originalWordLetters);
      valid := validLetters == |playerWord|;
    }

    /**
     * One pass of the turn loop: check the clock, prompt for a word, run a
     * command, refuse a reused word, then check the word's letters.
     */
    method Attempt(ev: Event) returns (r: StepResult)
      ensures r == Step(ev, attempts, originalWordLetters, repository.dictionary)
    {
      var lexicon := repository.dictionary;
      if IsTimeOver(RemainingMs(InputTimeLimit, ev.elapsedMs)).OutOfTime? {
        return ClockExpired;
      }
      var input := AskWord(ev.line, lexicon);
      if input.None? {
        return ReadTimedOut;
      }
      var cmd := HandleCommand(input.value);
      if input.value == "" {
        return Retry(Blank);
      }
      if cmd.Executed? {
        return Retry(CommandRun(cmd.action));
      }
      if cmd.Exit? {
        return ExitRequested;
      }
      var playerWord := input.value;
      if playerWord in attempts {
        return Retry(Reused);
      }
      var valid, verdict := IsWordValid(playerWord);
      if valid {
        return Accepted(playerWord);
      }
      return Retry(LetterError(verdict));
    }

    /**
     * One player's turn: retry until a playable new word is accepted, or
     * the clock runs out, the read times out, or the player exits. Returns
     * whether the turn succeeded and the index of the event that decided
     * it; every earlier event was a retry. The turn is the one
     * `TurnFrom` specifies, so for `toMove`, the seat of `player`, the
     * game goes on as `Round` from the next event with the other player to
     * move, or ends with `toMove` failing.
     */
    method PlayerTurn(player: Player, player1: Player, player2: Player, events: seq<Event>, ghost toMove: Seat) returns (ok: bool, decided: nat)
      requires Valid()
      modifies this`attempts
      ensures Valid()
      ensures decided <= |events|
      ensures forall k :: 0 <= k < decided ==> Step(events[k], old(attempts), originalWordLetters, repository.dictionary).Retry?
      ensures ok ==> (decided < |events|
        && |attempts| == |old(attempts)| + 1
        && attempts == old(attempts) + [attempts[|attempts| - 1]]
        && Step(events[decided], old(attempts), originalWordLetters, repository.dictionary) == Accepted(attempts[|attempts| - 1]))
      ensures !ok ==> (attempts == old(attempts)
        && (decided == |events| || EndsTurn(Step(events[decided], old(attempts), originalWordLetters, repository.dictionary))))
      ensures TurnFrom(events, old(attempts), originalWordLetters, repository.dictionary, 0)
        == (if ok then Some((decided, attempts[|attempts| - 1])) else None)
      ensures Round(events, old(attempts), toMove, originalWordLetters, repository.dictionary)
        == (if ok then Round(events[decided + 1..], attempts, Opponent(toMove), originalWordLetters, repository.dictionary)
            else (attempts, toMove))
    {
      var i := 0;
      while true
        invariant 0 <= i <= |events|
        invariant attempts == old(attempts)
        invariant forall k :: 0 <= k < i ==> Step(events[k], attempts, originalWordLetters, repository.dictionary).Retry?
        invariant TurnFrom(events, attempts, originalWordLetters, repository.dictionary, i)
          == TurnFrom(events, attempts, originalWordLetters, repository.dictionary, 0)
        decreases |events| - i
      {
        if i == |events| {
          RoundStops(events, attempts, toMove, originalWordLetters, repository.dictionary);
          return false, i;
        }
        var r := Attempt(events[i]);
        match r
        case Accepted(playerWord) =>
          StepAcceptsPlayable(events[i], attempts, originalWord, repository.dictionary, playerWord);
          LogOkSnoc(attempts, playerWord, originalWord, repository.dictionary);
          RoundTakes(events, attempts, toMove, originalWordLetters, repository.dictionary, i, playerWord);
          attempts := attempts + [playerWord];
          return true, i;
        case Retry(_) =>
          TurnFromRetry(events, attempts, originalWordLetters, repository.dictionary, i);
          i := i + 1;
        case ReadFaulted =>
          assert false;
        case _ =>
          RoundStops(events, attempts, toMove, originalWordLetters, repository.dictionary);
          return false, i;
      }
    }

    /** Announce the winner by parity and save the game's result. */
    method ShowResults(player1: Player, player2: Player) returns (result: GameResult)
      modifies repository
      ensures result == GameResult(player1.name, player2.name, WinnerName(|attempts|, player1, player2))
      ensures repository.Stored() == old(repository.Stored()) + [result]
    {
      var winner: string;
      if |attempts| % 2 == 0 {
        winner := player2.name;
      } else {
        winner := player1.name;
      }
      result := GameResult(player1.name, player2.name, winner);
      repository.SaveResult(result);
    }

    /**
     * Play a round: the first player, then the second, and so on, until a
     * turn fails; then the winner is saved. The final log and the player
     * whose turn failed are those `Round` gives for the script, so that
     * player is never the winner by parity.
     */
    method Start(player1: Player, player2: Player, originalWord: string, script: seq<Event>) returns (result: GameResult, failed: Seat)
      requires attempts == []
      modifies this, repository
      ensures this.originalWord == originalWord && Valid()
      ensures (attempts, failed) == Round(script, [], First, Tally(originalWord), repository.dictionary)
      ensures result == GameResult(player1.name, player2.name, WinnerName(|attempts|, player1, player2))
      ensures failed != WinnerSeat(|attempts|)
      ensures repository.Stored() == old(repository.Stored()) + [result]
    {
      this.originalWord := originalWord;
      originalWordLetters := GetLetterCounts(originalWord);
      var lexicon := repository.dictionary;
      ghost var round := Round(script, [], First, originalWordLetters, lexicon);
      var rest := script;
      while true
        invariant this.originalWord == originalWord && Valid()
        invariant Round(rest, attempts, First, originalWordLetters, lexicon) == round
        invariant repository.resultFile == old(repository.resultFile)
        decreases |rest|
      {
        var ok, decided := PlayerTurn(player1, player1, player2, rest, First);
        if !ok {
          failed := First;
          break;
        }
        rest := rest[decided + 1..];
        ok, decided := PlayerTurn(player2, player1, player2, rest, Second);
        if !ok {
          failed := Second;
          break;
        }
        rest := rest[decided + 1..];
      }
      RoundKeepsLog(script, [], First, originalWord, lexicon);
      AlternateLoser(TurnOf(originalWordLetters, lexicon), script, [], First);
      result := ShowResults(player1, player2);
    }
  }
}
