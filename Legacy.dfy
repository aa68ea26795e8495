/**
 * The earlier, standalone revision of the game: a single script that reads
 * the source word, counts its letters, and lets two players alternate until
 * one of them fails. Its turn limit is ten seconds, it has no commands, and
 * the line "-1" ends the game.
 *
 * Inputs are already lower-cased. The lines read while choosing the source
 * word and the events of the turns are given as sequences; a sequence that
 * runs out stands for the console's end of input while choosing the word,
 * and for the clock passing the deadline during a turn.
 */
module Legacy {
  import opened Wrappers
  import opened Counting
  import opened Letters
  import opened Rules

  /** Seconds allowed for one turn. */
  const InputTimeLimit: int := 10

  /** The line that ends the game. */
  const EndOfGame: string := "-1"

  /** The source word's length must lie between 8 and 30 letters. */
  predicate ValidLength(w: string) {
    8 <= |w| <= 30
  }

  // ----- Choosing the source word

  /** The first loop: the index of the first line, from `from` on, that the dictionary holds. */
  function FirstInLexicon(lexicon: set<string>, lines: seq<string>, from: nat): (k: Option<nat>)
    requires from <= |lines|
    ensures k.Some? ==> from <= k.value < |lines| && lines[k.value] in lexicon
    ensures k.Some? ==> forall j :: from <= j < k.value ==> lines[j] !in lexicon
    ensures k.None? ==> forall j :: from <= j < |lines| ==> lines[j] !in lexicon
    decreases |lines| - from
  {
    if from == |lines| then None
    else if lines[from] in lexicon then Some(from)
    else FirstInLexicon(lexicon, lines, from + 1)
  }

  /**
   * The second loop, entered with the word on line `k`: while the word's
   * length is out of range, the next line replaces it, without a dictionary
   * look-up.
   */
  function LengthLoop(lines: seq<string>, k: nat): (r: Option<string>)
    requires k < |lines|
    ensures r.Some? ==> ValidLength(r.value) && r.value in lines[k..]
    decreases |lines| - k
  {
    if ValidLength(lines[k]) then Some(lines[k])
    else if k + 1 == |lines| then None
    else
      var r := LengthLoop(lines, k + 1);
      assert lines[k + 1..] == lines[k..][1..];
      r
  }

  /** The source word the script chooses as written: the first dictionary word, or the first line after it of a valid length. */
  function SourceWordAsWritten(lexicon: set<string>, lines: seq<string>): (r: Option<string>)
    ensures r.Some? ==> ValidLength(r.value) && r.value in lines
  {
    match FirstInLexicon(lexicon, lines, 0)
    case None => None
    case Some(i) => LengthLoop(lines, i)
  }

  /** The two loops that choose the source word, as written. */
  method ReadSourceWordAsWritten(lexicon: set<string>, lines: seq<string>) returns (word: Option<string>)
    ensures word == SourceWordAsWritten(lexicon, lines)
    ensures word.Some? ==> ValidLength(word.value)
  {
    var next := 0;
    var originalWord: string;
    while true
      invariant 0 <= next <= |lines|
      invariant FirstInLexicon(lexicon, lines, next) == FirstInLexicon(lexicon, lines, 0)
      decreases |lines| - next
    {
      if next == |lines| {
        return None;
      }
      originalWord := lines[next];
      next := next + 1;
      if originalWord in lexicon {
        break;
      }
    }
    ghost var found := next - 1;
    assert FirstInLexicon(lexicon, lines, 0) == Some(found);
    while true
      invariant found < next <= |lines|
      invariant originalWord == lines[next - 1]
      invariant LengthLoop(lines, next - 1) == LengthLoop(lines, found)
      decreases |lines| - next
    {
      if !ValidLength(originalWord) {
        if next == |lines| {
          return None;
        }
        originalWord := lines[next];
        next := next + 1;
      } else {
        break;
      }
    }
    word := Some(originalWord);
  }

  /** A word read after the dictionary word, because the first was too short, becomes the source word although the dictionary does not hold it. */
  lemma ReReadWordIsNotLookedUp(lexicon: set<string>, lines: seq<string>)
    requires lexicon == {"cat"}
    requires lines == ["cat", "aardvarks"]
    ensures SourceWordAsWritten(lexicon, lines) == Some("aardvarks")
    ensures "aardvarks" !in lexicon
  {
    assert FirstInLexicon(lexicon, lines, 0) == Some(0);
    assert !ValidLength(lines[0]);
    assert LengthLoop(lines, 1) == Some("aardvarks");
  }

  /** A line fit to be the source word: the dictionary holds it and its length is in range. */
  predicate Qualifies(lexicon: set<string>, w: string) {
    w in lexicon && ValidLength(w)
  }

  /** The first line, from `from` on, that qualifies as the source word. */
  function SourceWordFrom(lexicon: set<string>, lines: seq<string>, from: nat): (r: Option<string>)
    requires from <= |lines|
    ensures r.Some? ==> Qualifies(lexicon, r.value)
    ensures r.Some? ==> exists i :: from <= i < |lines| && lines[i] == r.value && forall j :: from <= j < i ==> !Qualifies(lexicon, lines[j])
    ensures r.None? ==> forall j :: from <= j < |lines| ==> !Qualifies(lexicon, lines[j])
    decreases |lines| - from
  {
    if from == |lines| then None
    else if Qualifies(lexicon, lines[from]) then Some(lines[from])
    else SourceWordFrom(lexicon, lines, from + 1)
  }

  /** The intended choice of the source word: the first line that is both a dictionary word and of a valid length. */
  function SourceWord(lexicon: set<string>, lines: seq<string>): Option<string> {
    SourceWordFrom(lexicon, lines, 0)
  }

  /** Lines that do not qualify can be skipped. */
  lemma {:induction false} SkipUnqualified(lexicon: set<string>, lines: seq<string>, from: nat, k: nat)
    requires from <= k <= |lines|
    requires forall j :: from <= j < k ==> !Qualifies(lexicon, lines[j])
    ensures SourceWordFrom(lexicon, lines, from) == SourceWordFrom(lexicon, lines, k)
    decreases k - from
  {
    if from < k {
      SkipUnqualified(lexicon, lines, from + 1, k);
    }
  }

  /** Where the length loop ends on a dictionary word, the corrected search ends on the same word. */
  lemma {:induction false} LengthLoopAgrees(lexicon: set<string>, lines: seq<string>, k: nat)
    requires k < |lines|
    requires LengthLoop(lines, k).Some? && LengthLoop(lines, k).value in lexicon
    ensures LengthLoop(lines, k) == SourceWordFrom(lexicon, lines, k)
    decreases |lines| - k
  {
    if !ValidLength(lines[k]) {
      LengthLoopAgrees(lexicon, lines, k + 1);
    }
  }

  /** Whenever the script as written ends on a dictionary word, it ends on the word the corrected search finds. */
  lemma AsWrittenAgreesWhenLookedUp(lexicon: set<string>, lines: seq<string>)
    requires SourceWordAsWritten(lexicon, lines).Some?
    requires SourceWordAsWritten(lexicon, lines).value in lexicon
    ensures SourceWordAsWritten(lexicon, lines) == SourceWord(lexicon, lines)
  {
    var i := FirstInLexicon(lexicon, lines, 0).value;
    SkipUnqualified(lexicon, lines, 0, i);
    LengthLoopAgrees(lexicon, lines, i);
  }

  /** The source word is read until a line is both a dictionary word and of a valid length. */
  method ReadSourceWord(lexicon: set<string>, lines: seq<string>) returns (word: Option<string>)
    ensures word == SourceWord(lexicon, lines)
    ensures word.Some? ==> word.value in lexicon && ValidLength(word.value) && word.value in lines
  {
    var next := 0;
    while next < |lines|
      invariant 0 <= next <= |lines|
      invariant forall j :: 0 <= j < next ==> !Qualifies(lexicon, lines[j])
    {
      var originalWord := lines[next];
      if originalWord in lexicon && ValidLength(originalWord) {
        SkipUnqualified(lexicon, lines, 0, next);
        return Some(originalWord);
      }
      next := next + 1;
    }
    SkipUnqualified(lexicon, lines, 0, next);
    return None;
  }

  // ----- Counting letters

  /**
   * The script's letter count: for each position, one plus the number of
   * equal letters after it, kept only for the first position of each
   * letter. The first position sees every occurrence, so each letter gets
   * its full count.
   */
  method CountLetters(word: string) returns (counts: map<char, nat>)
    ensures counts == Tally(word)
  {
    counts := map[];
    for i := 0 to |word|
      invariant CountsOfPrefix(word, i, counts)
    {
      var count := 1;
      for j := i to |word|
        invariant j == i ==> count == 1
        invariant j > i ==> count == multiset(word[i..j])[word[i]]
      {
        if i == j {
          assert word[i..i + 1] == [word[i]];
          continue;
        }
        assert word[i..j + 1] == word[i..j] + [word[j]];
        if word[i] == word[j] {
          count := count + 1;
        }
      }
      TryAddKeepsCounts(word, i, counts, count);
      if word[i] !in counts {
        counts := counts[word[i] := count];
      }
    }
    CountsOfWhole(word, counts);
  }

  /** After the first `i` positions, the keys are the letters seen so far, each with its count in the whole word. */
  predicate CountsOfPrefix(word: string, i: nat, counts: map<char, nat>)
    requires i <= |word|
  {
    (forall c :: c in counts <==> c in word[..i]) && forall c :: c in counts ==> counts[c] == multiset(word)[c]
  }

  /** The `TryAdd` of position `i`, given the count from `i` to the end, keeps the counts right. */
  lemma TryAddKeepsCounts(word: string, i: nat, counts: map<char, nat>, count: nat)
    requires i < |word| && CountsOfPrefix(word, i, counts)
    requires count == multiset(word[i..|word|])[word[i]]
    ensures CountsOfPrefix(word, i + 1, if word[i] in counts then counts else counts[word[i] := count])
  {
    assert word[..i + 1] == word[..i] + [word[i]];
    if word[i] !in counts {
      FirstPositionSeesAll(word, i);
    }
  }

  /** Counts right after the whole word are its tally. */
  lemma CountsOfWhole(word: string, counts: map<char, nat>)
    requires CountsOfPrefix(word, |word|, counts)
    ensures counts == Tally(word)
  {
    assert word[..|word|] == word;
    TallyKeys(word);
    forall c | c in counts ensures counts[c] == Tally(word)[c] {
      TallyCount(word, c);
    }
  }

  /** At the first position of a letter, the rest of the word holds all of its occurrences. */
  lemma FirstPositionSeesAll(word: string, i: nat)
    requires i < |word| && word[i] !in word[..i]
    ensures multiset(word[i..|word|])[word[i]] == multiset(word)[word[i]]
  {
    assert word == word[..i] + word[i..|word|];
    assert word[i] !in multiset(word[..i]);
  }

  /** Stopping before the last distinct letter leaves the sum short of the word's length. */
  lemma PartialSumIsShort(w: string, i: nat)
    requires i < |Distinct(w)|
    ensures SumOver(Tally(w), Distinct(w)[..i]) < |w|
  {
    var keys := Distinct(w);
    DistinctSpec(w);
    TallyKeys(w);
    TallyCount(w, keys[i]);
    SumOverPrefix(Tally(w), keys, i);
    TallySum(w);
  }

  /**
   * The letter check of one try: walk the try's letter counts and add each
   * to `num`, stopping at a letter the source word lacks or has too few of;
   * the try fits when `num` reaches its length.
   */
  method FitsBudget(tryWord: string, budget: map<char, nat>) returns (accepted: bool)
    ensures accepted <==> Judge(Distinct(tryWord), Tally(tryWord), budget).Fits?
    ensures accepted <==> WithinBudget(tryWord, budget)
  {
    JudgeLetters(tryWord, budget);
    TallyKeys(tryWord);
    DistinctSpec(tryWord);
    var tryCounts := CountLetters(tryWord);
    var keys := Distinct(tryWord);
    var num := 0;
    var i := 0;
    while i < |keys|
      invariant 0 <= i <= |keys|
      invariant num == SumOver(tryCounts, keys[..i])
      invariant Judge(keys[i..], tryCounts, budget) == Judge(keys, tryCounts, budget)
    {
      var key := keys[i];
      var value1 := tryCounts[key];
      JudgeFrom(keys, tryCounts, budget, i);
      if key in budget && value1 <= budget[key] {
        SumOverStep(tryCounts, keys, i);
        num := num + value1;
      } else {
        PartialSumIsShort(tryWord, i);
        break;
      }
      i := i + 1;
    }
    if i == |keys| {
      assert keys[..i] == keys;
      TallySum(tryWord);
    }
    accepted := num == |tryWord|;
  }

  // ----- The turns

  /** The word prompt: a timed-out read and the line "-1" end the game; a word the dictionary lacks becomes the empty string. */
  function AskWord(line: Option<string>, lexicon: set<string>): (r: Option<string>)
    ensures r.None? <==> line.None? || line == Some(EndOfGame)
    ensures r != Some(EndOfGame)
    ensures r.Some? && r.value != "" ==> r == line && r.value in lexicon
    ensures line.Some? && line.value != EndOfGame && line.value in lexicon ==> r == line
  {
    match line
    case None => None
    case Some(input) =>
      if input == EndOfGame then None
      else if input !in lexicon then Some("")
      else line
  }

  /** The effect of one pass of a player's loop. */
  datatype Move = TimeUp | GameEnded | TryAgain | Take(word: string)

  /** The pass ends the game. */
  predicate EndsGame(m: Move) {
    m.TimeUp? || m.GameEnded?
  }

  /** One pass of a player's loop, the "-1" test after the reuse test included. */
  function Step(ev: Event, attempts: seq<string>, budget: map<char, nat>, lexicon: set<string>): (m: Move)
    ensures m.TimeUp? <==> ev.elapsedMs >= InputTimeLimit * 1000
    ensures m.GameEnded? ==> ev.line.None? || ev.line == Some(EndOfGame)
    ensures m.Take? ==> ev.line == Some(m.word) && m.word !in attempts && m.word != EndOfGame
  {
    if IsTimeOver(RemainingMs(InputTimeLimit, ev.elapsedMs)).OutOfTime? then TimeUp
    else match AskWord(ev.line, lexicon)
      case None => GameEnded
      case Some(input) =>
        if input == "" then TryAgain
        else if input in attempts then TryAgain
        else if input == EndOfGame then GameEnded
        else if Judge(Distinct(input), Tally(input), budget).Fits? then Take(input)
        else TryAgain
  }

  /** A word the round may accept: a non-empty dictionary word other than "-1", made of the source word's letters. */
  predicate Takeable(w: string, originalWord: string, lexicon: set<string>) {
    w != "" && w != EndOfGame && w in lexicon && multiset(w) <= multiset(originalWord)
  }

  /** The words of a round: none twice, each takeable. */
  predicate RoundLog(log: seq<string>, originalWord: string, lexicon: set<string>) {
    NoDuplicates(log) && forall i :: 0 <= i < |log| ==> Takeable(log[i], originalWord, lexicon)
  }

  /** A pass takes a word exactly when the clock still runs, the word was read, it is new, and it is takeable. */
  lemma StepTakes(ev: Event, attempts: seq<string>, originalWord: string, lexicon: set<string>, w: string)
    ensures Step(ev, attempts, Tally(originalWord), lexicon) == Take(w)
        <==> ClockRunning(InputTimeLimit, ev) && ev.line == Some(w) && w !in attempts && Takeable(w, originalWord, lexicon)
  {
    JudgeLetters(w, Tally(originalWord));
    WithinLettersOf(w, originalWord);
    if Step(ev, attempts, Tally(originalWord), lexicon) == Take(w) {
      assert AskWord(ev.line, lexicon) == Some(w);
    }
  }

  /** A pass ends the game exactly when the clock has run out, the read timed out, or the player typed "-1". */
  lemma StepEnds(ev: Event, attempts: seq<string>, budget: map<char, nat>, lexicon: set<string>)
    ensures EndsGame(Step(ev, attempts, budget, lexicon))
        <==> !ClockRunning(InputTimeLimit, ev) || ev.line.None? || ev.line == Some(EndOfGame)
  {
  }

  /** Taking a new takeable word keeps the round's log well formed. */
  lemma RoundLogSnoc(log: seq<string>, w: string, originalWord: string, lexicon: set<string>)
    requires RoundLog(log, originalWord, lexicon)
    requires w !in log && Takeable(w, originalWord, lexicon)
    ensures RoundLog(log + [w], originalWord, lexicon)
  {
    var l := log + [w];
    assert forall i :: 0 <= i < |log| ==> l[i] == log[i];
  }

  /**
   * A turn from event `from` on: passes that try again are skipped, and the
   * first pass that does not decides the turn. The result is the index of
   * that event and the word it accepted, or none when it ended the game or the
   * script ran out.
   */
  function TurnFrom(events: seq<Event>, log: seq<string>, budget: map<char, nat>, lexicon: set<string>, from: nat): (r: Option<(nat, string)>)
    requires from <= |events|
    ensures r.Some? ==> from <= r.value.0 < |events| && Step(events[r.value.0], log, budget, lexicon) == Take(r.value.1)
    decreases |events| - from
  {
    if from == |events| then None
    else match Step(events[from], log, budget, lexicon)
      case TryAgain => TurnFrom(events, log, budget, lexicon, from + 1)
      case Take(w) => Some((from, w))
      case _ => None
  }

  /** A turn of this revision: the turn from the first event of the script on. */
  function TurnOf(budget: map<char, nat>, lexicon: set<string>): Turn {
    (events, log) => TurnFrom(events, log, budget, lexicon, 0)
  }

  /** The game of this revision from the turn of `toMove` on: turns of `TurnOf` alternate until one fails. */
  function Round(events: seq<Event>, log: seq<string>, toMove: Seat, budget: map<char, nat>, lexicon: set<string>): (seq<string>, Seat) {
    Alternate(TurnOf(budget, lexicon), events, log, toMove)
  }

  /** The words the round log may hold. */
  function TakeableIn(originalWord: string, lexicon: set<string>): string -> bool {
    w => Takeable(w, originalWord, lexicon)
  }

  /** Against the source word's letters, a turn is decided by an event of its script and accepts only new words that may enter the log. */
  lemma TurnOfAccepts(originalWord: string, lexicon: set<string>)
    ensures WithinScript(TurnOf(Tally(originalWord), lexicon))
    ensures AcceptsOnly(TurnOf(Tally(originalWord), lexicon), TakeableIn(originalWord, lexicon))
  {
    var turn := TurnOf(Tally(originalWord), lexicon);
    forall events, log | turn(events, log).Some?
      ensures turn(events, log).value.0 < |events|
      ensures turn(events, log).value.1 !in log && TakeableIn(originalWord, lexicon)(turn(events, log).value.1)
    {
      var k, w := turn(events, log).value.0, turn(events, log).value.1;
      StepTakes(events[k], log, originalWord, lexicon, w);
    }
  }

  /** A game keeps the round log well formed and only extends it, by at most one word per event. */
  lemma RoundKeepsLog(events: seq<Event>, log: seq<string>, toMove: Seat, originalWord: string, lexicon: set<string>)
    requires RoundLog(log, originalWord, lexicon)
    ensures RoundLog(Round(events, log, toMove, Tally(originalWord), lexicon).0, originalWord, lexicon)
    ensures |log| <= |Round(events, log, toMove, Tally(originalWord), lexicon).0| <= |log| + |events|
    ensures Round(events, log, toMove, Tally(originalWord), lexicon).0[..|log|] == log
  {
    var ok := TakeableIn(originalWord, lexicon);
    TurnOfAccepts(originalWord, lexicon);
    AlternateKeepsLog(TurnOf(Tally(originalWord), lexicon), ok, events, log, toMove);
  }

  /** A pass that tries again leaves the turn to the later events: one more pass of the loop has asked again. */
  lemma TurnFromRetry(events: seq<Event>, log: seq<string>, budget: map<char, nat>, lexicon: set<string>, i: nat)
    requires i < |events| && Step(events[i], log, budget, lexicon) == TryAgain
    requires forall k :: 0 <= k < i ==> Step(events[k], log, budget, lexicon) == TryAgain
    requires TurnFrom(events, log, budget, lexicon, i) == TurnFrom(events, log, budget, lexicon, 0)
    ensures forall k :: 0 <= k < i + 1 ==> Step(events[k], log, budget, lexicon) == TryAgain
    ensures TurnFrom(events, log, budget, lexicon, i + 1) == TurnFrom(events, log, budget, lexicon, 0)
  {
  }

  /** A turn that takes a word hands the rest of the script to the other player. */
  lemma RoundTakes(events: seq<Event>, log: seq<string>, toMove: Seat, budget: map<char, nat>, lexicon: set<string>, k: nat, w: string)
    requires TurnFrom(events, log, budget, lexicon, 0) == Some((k, w))
    ensures k < |events|
    ensures Round(events, log, toMove, budget, lexicon) == Round(events[k + 1..], log + [w], Opponent(toMove), budget, lexicon)
  {
  }

  /** A turn that takes no word ends the round with the player to move failing. */
  lemma RoundStops(events: seq<Event>, log: seq<string>, toMove: Seat, budget: map<char, nat>, lexicon: set<string>)
    requires TurnFrom(events, log, budget, lexicon, 0).None?
    ensures Round(events, log, toMove, budget, lexicon) == (log, toMove)
  {
  }

  /** One pass of a player's loop: the clock, the prompt, the reuse test, the "-1" test, the letter check. */
  method Pass(ev: Event, attempts: seq<string>, budget: map<char, nat>, lexicon: set<string>) returns (m: Move)
    ensures m == Step(ev, attempts, budget, lexicon)
  {
    var remainingMs := RemainingMs(InputTimeLimit, ev.elapsedMs);
    if remainingMs <= 0 {
      return TimeUp;
    }
    var input := AskWord(ev.line, lexicon);
    if input == None {
      return GameEnded;
    }
    if input.value == "" {
      return TryAgain;
    }
    var tryWord := input.value;
    if tryWord in attempts {
      return TryAgain;
    }
    if tryWord == EndOfGame {
      return GameEnded;
    }
    var accepted := FitsBudget(tryWord, budget);
    if accepted {
      return Take(tryWord);
    }
    return TryAgain;
  }

  /**
   * One player's loop, the same for both players: pass after pass until a
   * word is taken or the game ends. Returns the attempt list afterwards,
   * whether the game goes on, and the index of the deciding event; every
   * earlier event was a retry. The loop is the one `TurnFrom`
   * specifies, so for `toMove`, the seat whose loop this is, the game goes
   * on as `Round` with the other player, or ends with `toMove` failing.
   */
  method Turn(lexicon: set<string>, budget: map<char, nat>, attempts: seq<string>, events: seq<Event>, ghost toMove: Seat)
    returns (next: seq<string>, goOn: bool, decided: nat)
    ensures decided <= |events|
    ensures forall k :: 0 <= k < decided ==> Step(events[k], attempts, budget, lexicon) == TryAgain
    ensures goOn ==> (decided < |events|
      && Step(events[decided], attempts, budget, lexicon).Take?
      && next == attempts + [Step(events[decided], attempts, budget, lexicon).word])
    ensures !goOn ==> (next == attempts
      && (decided == |events| || EndsGame(Step(events[decided], attempts, budget, lexicon))))
    ensures TurnFrom(events, attempts, budget, lexicon, 0) == (if goOn then Some((decided, next[|next| - 1])) else None)
    ensures Round(events, attempts, toMove, budget, lexicon)
      == (if goOn then Round(events[decided + 1..], next, Opponent(toMove), budget, lexicon) else (attempts, toMove))
  {
    var i := 0;
    while i < |events|
      invariant 0 <= i <= |events|
      invariant forall k :: 0 <= k < i ==> Step(events[k], attempts, budget, lexicon) == TryAgain
      invariant TurnFrom(events, attempts, budget, lexicon, i) == TurnFrom(events, attempts, budget, lexicon, 0)
    {
      var m := Pass(events[i], attempts, budget, lexicon);
      match m
      case Take(w) =>
        RoundTakes(events, attempts, toMove, budget, lexicon, i, w);
        return attempts + [w], true, i;
      case TryAgain =>
        TurnFromRetry(events, attempts, budget, lexicon, i);
        i := i + 1;
      case _ =>
        RoundStops(events, attempts, toMove, budget, lexicon);
        return attempts, false, i;
    }
    RoundStops(events, attempts, toMove, budget, lexicon);
    return attempts, false, i;
  }

  /**
   * A round: count the source word's letters, then the first player's loop
   * and, if the game goes on, the second player's, until the game ends;
   * the winner is announced by parity. The final words and `failed`, the
   * player whose loop ended the game, are those `Round` gives for the
   * script, so the winner is never that player.
   */
  method Play(lexicon: set<string>, originalWord: string, events: seq<Event>)
    returns (attempts: seq<string>, failed: Seat, winner: Seat)
    ensures (attempts, failed) == Round(events, [], First, Tally(originalWord), lexicon)
    ensures RoundLog(attempts, originalWord, lexicon)
    ensures winner == WinnerSeat(|attempts|)
    ensures failed != winner
  {
    var budget := CountLetters(originalWord);
    attempts := [];
    failed := First;
    var rest := events;
    var flag := true;
    while flag
      invariant flag ==> Round(rest, attempts, First, budget, lexicon) == Round(events, [], First, budget, lexicon)
      invariant !flag ==> (attempts, failed) == Round(events, [], First, budget, lexicon)
      decreases |rest| + (if flag then 1 else 0)
    {
      var goOn, decided;
      attempts, goOn, decided := Turn(lexicon, budget, attempts, rest, First);
      if goOn {
        rest := rest[decided + 1..];
      } else {
        flag := false;
        failed := First;
      }
      if flag {
        attempts, goOn, decided := Turn(lexicon, budget, attempts, rest, Second);
        if goOn {
          rest := rest[decided + 1..];
        } else {
          flag := false;
          failed := Second;
        }
      }
    }
    RoundKeepsLog(events, [], First, originalWord, lexicon);
    AlternateLoser(TurnOf(budget, lexicon), events, [], First);
    if |attempts| % 2 == 0 {
      winner := Second;
    } else {
      winner := First;
    }
  }

  /** The whole script with the corrected choice of the source word: no round without a source word. */
  method Run(lexicon: set<string>, lines: seq<string>, events: seq<Event>)
    returns (originalWord: Option<string>, attempts: seq<string>, winner: Option<Seat>)
    ensures originalWord == SourceWord(lexicon, lines)
    ensures originalWord.None? ==> attempts == [] && winner == None
    ensures originalWord.Some? ==> (originalWord.value in lexicon && ValidLength(originalWord.value)
      && attempts == Round(events, [], First, Tally(originalWord.value), lexicon).0
      && RoundLog(attempts, originalWord.value, lexicon) && winner == Some(WinnerSeat(|attempts|)))
  {
    originalWord := ReadSourceWord(lexicon, lines);
    if originalWord.None? {
      return None, [], None;
    }
    var failed, seat;
    attempts, failed, seat := Play(lexicon, originalWord.value, events);
    winner := Some(seat);
  }
}
