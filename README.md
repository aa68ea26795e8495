# Word game rules engine

This is a Dafny model of the rules engine of a two-player word game. A source word of 8 to 30 letters is chosen. The players then take turns entering dictionary words made from its letters. A word may use each letter at most as often as the source word has it, and no word may be played twice in a round. A turn is lost when the clock runs out, when the timed read returns nothing, or when the player quits. The winner is decided by the parity of the number of accepted words: an even count makes the second player the winner, an odd count the first.

Two revisions of the program are modelled:

- **Final revision** (`Game.cs`, `DataRepository.cs`):
  - a `Game` object whose attempt log is a field;
  - a command interpreter (`/help`, `/show-words`, `/score`, `/total-score`, `/exit`);
  - a 20-second turn;
  - a result store holding the history of games, with total and head-to-head win counts;
  - a leaderboard ordered by wins.
- **Earlier revision** (`Program.cs`):
  - a single top-level script with a 10-second turn;
  - the line `-1` ends the game;
  - a different letter-counting algorithm with nested loops.

Modules:

- `Wrappers`: the `Option` datatype.
- `Counting`: counting occurrences in a sequence, as a dictionary filled element by element computes them.
  - `Tally` is the count map.
  - `Distinct` is the key order.
  - `SumOver` sums the counts over those keys.
- `Letters`: the letter-budget test.
  - `WithinBudget` is the test itself; against a source word's counts it is multiset inclusion.
  - `Judge` reports the first letter that fails, which picks the error message.
- `Rules`: shared by both revisions.
  - `Seat` and `WinnerSeat`, the winner by parity, stated through `Mover`, the player to move after a number of accepted words.
  - The turn clock (`RemainingMs`, `IsTimeOver`).
  - Turn events (`Event`): the elapsed milliseconds at the clock check, and the line the timed read returned, or `None` on timeout.
  - `Alternate`, the game loop shared by both revisions: turns of the two players alternate over a script until a turn takes no word. Its lemmas say who fails and what the log becomes, for any turn function.
- `Results`: the `GameResult` record, and the statistics over a history as functions (`TotalScores`, `Between`, `HeadToHead`).
- `Repository`: class `DataRepository`. The result file is a field `Option<seq<GameResult>>`; `None` means there is no file.
- `Engine`: the final revision.
  - The prompt filter `AskWord` and the command interpreter `HandleCommand`.
  - `Step`, the specification of one pass of the turn loop; `TurnFrom`, the specification of a turn (passes until one does not ask again); and `Round`, the specification of the game (`Alternate` over those turns).
  - Class `Game`, whose fields are `originalWord`, `originalWordLetters` and `attempts`, and whose methods are `GetLetterCounts`, `IsWordValid`, `PlayerTurn`, `ShowResults` and `Start`.
  - The leaderboard order.
- `Legacy`: the earlier revision.
  - Choosing the source word.
  - The nested-loop letter count.
  - The `num` letter check.
  - The `-1` prompt.
  - One player's loop, used for both players, and the alternation of the two loops, with the same three specifications `Step`, `TurnFrom` and `Round` for this revision.

The imperative code is modelled as methods with loops: the dictionary-filling loops, the letter checks, the turn loops, the result store, and the script. The turn and game methods are proved against the specification functions above: one pass equals `Step`, a turn equals `TurnFrom`, and a whole game ends with exactly the log and the failing player that `Round` gives. The loops over counts are proved against `Tally`, `Judge` and the result statistics. The properties of those functions are proved as lemmas.

A turn is driven by a script of events. A script that runs out stands for the clock passing the deadline. `PlayerTurn` and `Legacy.Turn` return the index of the event that decided the turn. Every earlier event is proved to have been a retry.

## Model

| member | source | states |
|---|---|---|
| Counting.DistinctSpec | Game.cs:110 | The keys a letter dictionary enumerates have no duplicates, are letters of the word, and cover every letter of the word. |
| Counting.TallySnoc | Game.cs:143-149 | Counting one more element raises an existing key by one or adds the key with count one. |
| Counting.TallyCount | Game.cs:139-151 | A key of the counts occurs in the word, every letter is a key, and each count is that letter's multiplicity. |
| Counting.TallyKeys | Game.cs:139-151 | The keys of the counts are exactly the letters of the word. |
| Counting.TallySum | Game.cs:139-151 | The counts summed over the keys equal the word's length. |
| Counting.SumOverStep | Game.cs:122 | Adding the next key's count extends the running sum to one more key. |
| Counting.SumOverPrefix | Program.cs:119-133 | A running sum stopped before some key, plus that key's count, is at most the full sum. |
| Counting.SumOverBump | DataRepository.cs:85-92 | Raising one listed key by one raises the sum over duplicate-free keys by exactly one. |
| Letters.WithinLettersOf | Game.cs:105-132 | Against the source word's counts, the budget test holds iff the word's letter multiset is included in the source word's. |
| Letters.Judge | Game.cs:110-130 | The outcome is Fits iff every key is in the budget within its count. An Unavailable letter is a key missing from the budget. An Exceeds letter is a budgeted key whose count is over budget. |
| Letters.JudgeFrom | Game.cs:110-130 | Judging from key `i` tests key `i` (missing, then over budget) before the remaining keys. |
| Letters.JudgeLetters | Game.cs:105-132 | Judging a word's distinct letters by its counts gives Fits iff the word is within the budget; in particular the empty word fits. |
| Rules.MoverParity | Game.cs:341 | The player to move after `n` accepted words is the first player iff `n` is even. |
| Rules.WinnerSeat | Game.cs:341-350 | The parity winner is never the player to move after the accepted words. After at least one word, it is the player who entered the last one. |
| Rules.RemainingMs | Game.cs:223-228 | Time remains iff fewer milliseconds than the limit have elapsed. The remainder never exceeds the limit. |
| Rules.AlternateLoser | Game.cs:41-45 | For any turn function, the player whose turn fails is the one to move after the final log, so never the parity winner. |
| Rules.AlternateKeepsLog | Game.cs:41-45 | A turn that decides on an event of its script and accepts only new, acceptable words keeps the log duplicate-free and acceptable. The game only extends the log, by at most one word per event. |
| Rules.IsTimeOver | Game.cs:201-215 | Time is up iff no millisecond remains. Otherwise the shown seconds are at least one, and they are the ceiling of the remaining milliseconds over 1000. |
| Results.Winners | DataRepository.cs:83-93 | One winner name per record, in history order. |
| Results.WinnersCount | DataRepository.cs:83-93 | A name's multiplicity among the winners is its number of won records. |
| Results.TotalScoresKeys | DataRepository.cs:76-93 | The keys of the total scores are exactly the names that won some game; an empty history gives the empty map. |
| Results.TotalScoresCountWins | DataRepository.cs:83-93 | A name has a total iff it won a game, and its total is its number of won records. |
| Results.TotalScoresSum | DataRepository.cs:83-93 | The totals summed over their keys equal the number of records. |
| Results.TotalScoresSnoc | DataRepository.cs:85-92 | One more record changes only its winner's total, by one. |
| Results.BetweenMembers | DataRepository.cs:117-121 | A record counts for the pairing iff its two players are the two names, in either seating. |
| Results.BetweenSnoc | DataRepository.cs:115-132 | One more record joins the pairing's games exactly when it is a match between the two names. |
| Results.HeadToHeadSnocMatch | DataRepository.cs:121-131 | A further match between the two raises only its winner's head-to-head score, by one. |
| Results.HeadToHeadSnocOther | DataRepository.cs:121 | A further record of other players leaves the head-to-head scores unchanged. |
| Results.BetweenSymmetric | DataRepository.cs:117-119 | The pairing's games do not depend on the order of the two names. |
| Results.HeadToHeadSymmetric | DataRepository.cs:104-135 | Head-to-head scores are symmetric in the two names. |
| Results.HeadToHeadCountsMatches | DataRepository.cs:115-131 | A name has a head-to-head score iff it won a match between the two, and the score is its number of such wins. |
| Results.WinsOfBetween | DataRepository.cs:115-131 | Wins within a pairing are at most wins overall. |
| Results.HeadToHeadAtMostTotal | DataRepository.cs:115-131 | Every head-to-head score is at most the same name's total score, and that name has a total. |
| Results.TotalScoresExample | DataRepository.cs:72-96 | For the games A–B won by A, A–B won by B and A–C won by A, the totals are A: 2 and B: 1. |
| Results.HeadToHeadExample | DataRepository.cs:104-135 | In the same history A and B have one head-to-head win each; the A–C game is not counted. |
| Repository.DataRepository.constructor | DataRepository.cs:19-30 | The repository holds the given dictionary and result file. |
| Repository.DataRepository.SaveResult | DataRepository.cs:37-52 | The file afterwards holds the old history (empty when there was no file) followed by the new record. |
| Repository.DataRepository.LoadResults | DataRepository.cs:58-66 | The stored records; none when there is no file. |
| Repository.DataRepository.GetTotalScores | DataRepository.cs:72-96 | The result is the total-score map of the stored history; its loop keeps the scores of the records seen so far. |
| Repository.DataRepository.GetHeadToHeadScores | DataRepository.cs:104-135 | The result is the head-to-head map of the stored history for the two names. |
| Engine.AskWord | Game.cs:159-178 | The result is absent iff the read timed out. Commands pass unchanged, dictionary words pass unchanged, and every other word becomes the empty string. |
| Engine.HandleCommand | Game.cs:237-271 | Input without `/` is no command, `/exit` exits, and every other `/` input is executed. Exactly the unknown ones are executed as a wrong command. |
| Engine.Dispatch | Game.cs:69-93 | A read line never ends the turn through the clock or a fault. It ends the turn iff it is `/exit`. An accepted line is new, non-empty and no command. A reused word is asked again. |
| Engine.Step | Game.cs:65-93 | The clock ends the turn iff 20 s have elapsed. A timed-out read ends it iff the clock still ran. A pass never faults, and an accepted word is the line read and is new. |
| Engine.StepAsWritten | Game.cs:65-80 | In the code as written, the clock ends the turn iff 20 s have elapsed, and a timed-out read while the clock runs always faults, so no pass ends on a timed-out read. |
| Engine.TurnFrom | Game.cs:62-95 | A turn that takes a word does so at an event of the script from the given position on, and that event's pass accepted the word. |
| Engine.TurnFromRetry | Game.cs:74-85 | A pass that asks again leaves the turn to the later events, and one more pass has asked again. |
| Engine.TurnOfAccepts | Game.cs:83-92 | A turn is decided by an event of its script and takes only new, playable words. |
| Engine.RoundKeepsLog | Game.cs:36-45 | The game's final log extends the starting log, stays duplicate-free and playable, and grows by at most one word per event. |
| Engine.RoundTakes | Game.cs:41-45 | When a turn takes a word at some event, the game continues with the later events, the word logged, and the other player to move. |
| Engine.RoundStops | Game.cs:41-45 | When a turn takes no word, the game ends there: the log is unchanged and the player to move has failed. |
| Engine.LogOkSnoc | Game.cs:83-92 | Appending a new playable word keeps the attempt log duplicate-free and playable. |
| Engine.TimedOutReadFaults | Game.cs:68-72 | The code as written and the corrected order differ exactly on a timed-out read while the clock runs; there the code faults. |
| Engine.TimedOutReadFaultsExample | Game.cs:65-72 | A read that times out 5 s into the turn faults in the code as written. |
| Engine.StepAcceptsPlayable | Game.cs:63-94 | A pass accepts `w` iff the clock runs, `w` was read, `w` is new, non-empty, not a command, in the dictionary and within the source word's letters. |
| Engine.StepEndsTurn | Game.cs:65-80 | A pass ends the turn iff the clock ran out, the read timed out, or the input is `/exit`. |
| Engine.WinnerName | Game.cs:340-350 | The winner is one of the two players' names. |
| Engine.InsertionPoint | Game.cs:324 | The insertion point lies after every entry with at least as many wins, and before the first entry with fewer. |
| Engine.InsertByWins | Game.cs:324 | Inserting keeps the list ordered by wins, descending, and adds exactly the entry. |
| Engine.InsertionKeepsOrder | Game.cs:324 | Putting an entry at its insertion point keeps a descending list descending. |
| Engine.OrderByWins | Game.cs:324 | The leaderboard is ordered by wins, most first, and is a permutation of the entries. |
| Engine.TableOfBestPlayers | Game.cs:322-330 | Given the score dictionary's keys in enumeration order, the rows are a permutation of the (name, score) pairs in that order, ordered by wins, most first. Every name appears with its score, and only those. |
| Engine.Game.constructor | Game.cs:21-27 | A new game has an empty attempt log. |
| Engine.Game.GetLetterCounts | Game.cs:139-151 | The loop computes the tally of the word. |
| Engine.Game.IsWordValid | Game.cs:105-132 | The result is true iff every letter of the word is available in the source word often enough. The verdict is the first failing letter, in dictionary order: absent (the `-1` path) or over-used (the early return). |
| Engine.Game.Attempt | Game.cs:65-93 | One pass of the turn loop computes exactly `Step` for the current log. |
| Engine.Game.PlayerTurn | Game.cs:58-96 | The game invariant is kept, and every event before the deciding one was a retry. On success the log has grown by exactly the accepted word, earlier entries unchanged. On failure the log is unchanged and the deciding pass ended the turn (or no event was left). The turn is the one `TurnFrom` gives, so the game goes on as `Round` from the next event with the other player to move, or ends with this player failing. |
| Engine.Game.ShowResults | Game.cs:338-361 | The saved record names both players and the parity winner, and is appended to the stored history. |
| Engine.Game.Start | Game.cs:36-48 | The final attempt log and the player whose turn failed are exactly those `Round` gives for the script, from an empty log with the first player to move. The game invariant holds at the end, the record of the parity winner is appended to the history, and the failing player is not the winner. |
| Legacy.FirstInLexicon | Program.cs:36-43 | The first line from a position on that the dictionary holds, all lines before it not held; or none at all. |
| Legacy.LengthLoop | Program.cs:44-51 | When the length loop ends on a word, its length is between 8 and 30 and the word is one of the later lines. |
| Legacy.SourceWordAsWritten | Program.cs:35-51 | The chosen word, as written, always has a valid length and is one of the lines. |
| Legacy.ReadSourceWordAsWritten | Program.cs:35-51 | The script's two loops compute `SourceWordAsWritten`; on exit the word's length is valid. |
| Legacy.ReReadWordIsNotLookedUp | Program.cs:45-51 | With dictionary {cat} and lines cat, aardvarks, the script chooses aardvarks, which the dictionary lacks. |
| Legacy.SourceWordFrom | Program.cs:36-51 | The corrected search gives the first line that is in the dictionary and of a valid length, or none when no line qualifies. |
| Legacy.SkipUnqualified | Program.cs:36-51 | Lines that do not qualify do not change the corrected search. |
| Legacy.LengthLoopAgrees | Program.cs:44-51 | When the length loop ends on a dictionary word, the corrected search ends on the same word. |
| Legacy.AsWrittenAgreesWhenLookedUp | Program.cs:35-51 | Whenever the script as written ends on a dictionary word, that word is the corrected choice. |
| Legacy.ReadSourceWord | Program.cs:35-51 | The corrected reading returns the corrected choice: a dictionary word of valid length taken from the lines. |
| Legacy.CountLetters | Program.cs:53-66 | The nested-loop count equals the tally of the word, and so equals `Engine.Game.GetLetterCounts`. |
| Legacy.TryAddKeepsCounts | Program.cs:59-65 | The `TryAdd` of position `i`, with the count of equal letters from `i` on, keeps every key at its full count. |
| Legacy.CountsOfWhole | Program.cs:57-66 | Counts correct for the whole word are its tally. |
| Legacy.FirstPositionSeesAll | Program.cs:60-64 | From the first position of a letter, the inner loop sees all of its occurrences. |
| Legacy.PartialSumIsShort | Program.cs:119-133 | A `num` loop that stops early leaves `num` below the word's length. |
| Legacy.FitsBudget | Program.cs:102-133 | `num` reaches the try's length iff the try is within the source word's letter budget. |
| Legacy.AskWord | Program.cs:261-280 | The result is absent iff the read timed out or the line is `-1`, and it is never `-1`. A word the dictionary lacks becomes the empty string; dictionary words pass. |
| Legacy.StepTakes | Program.cs:80-137 | A pass takes `w` iff the clock runs, `w` was read, `w` is new, non-empty, not `-1`, in the dictionary and within the source word's letters. |
| Legacy.StepEnds | Program.cs:82-106 | A pass ends the game iff the clock ran out, the read timed out, or the line is `-1`. So the `-1` test after the reuse test never decides anything. |
| Legacy.Step | Program.cs:82-137 | The clock ends the game iff 10 s have elapsed. Otherwise the game ends only on a timed-out read or the line `-1`. A taken word is the line read, is new and is not `-1`. |
| Legacy.TurnFrom | Program.cs:80-138 | A loop that takes a word does so at an event of the script from the given position on, and that event's pass took the word. |
| Legacy.TurnFromRetry | Program.cs:99-105 | A pass that tries again leaves the loop to the later events, and one more pass has tried again. |
| Legacy.TurnOfAccepts | Program.cs:105-137 | A loop is decided by an event of its script and takes only new, takeable words. |
| Legacy.RoundKeepsLog | Program.cs:74-199 | The game's words extend the starting words, stay duplicate-free and takeable, and grow by at most one word per event. |
| Legacy.RoundTakes | Program.cs:74-199 | When a loop takes a word at some event, the game continues with the later events, the word added, and the other player's loop. |
| Legacy.RoundStops | Program.cs:74-199 | When a loop takes no word, the game ends there: the words are unchanged and that loop's player has failed. |
| Legacy.RoundLogSnoc | Program.cs:105-137 | Adding a new takeable word keeps the round's words duplicate-free and takeable. |
| Legacy.Pass | Program.cs:82-137 | One pass of a player's loop computes exactly `Step`. |
| Legacy.Turn | Program.cs:80-138 | Every event before the deciding one was a retry. If the game goes on, `attempts` has grown by exactly the taken word. Otherwise it is unchanged and the deciding pass ended the game (or no event was left). The loop is the one `TurnFrom` gives, so the game goes on as `Round` with the other player, or ends with this player failing. |
| Legacy.Play | Program.cs:53-206 | The round's words and the player whose loop ended the game are exactly those `Round` gives for the script. The words are duplicate-free and takeable. The winner is decided by parity (even: second player) and is not the player whose loop ended the game. |
| Legacy.Run | Program.cs:33-206 | With the corrected source-word choice, a round is played only on a dictionary word of valid length. Its words are those `Round` gives for the script, they are well formed, and its winner is decided by parity. |

## Left out

- Console output, colours and the localisation tables (`ConsoleUI.cs`, `IUserInterface.cs`, both language tables and the language menu in `Program.cs`): these are static text and I/O. A command's printing is modelled by the `Action` it selects. The missing-data message of `/score` and `/total-score` is not modelled.
- `ReadLineWithTimeOut`: a task racing a timeout. Its result is an input, the `line` of each `Event`, with `None` for a timed-out read.
- `DateTime.Now` and the `double`-to-`int` cast of the elapsed time: the elapsed milliseconds at each clock check are an integer input of the event.
- Both prompts in the final revision read the clock separately: `IsTimeOver` first, then `GetRemainingMs` for the timed read (Game.cs:65-68). The model uses one clock reading per pass. The second reading can be zero or negative after the first found time left. `Task.Wait` (Game.cs:189) then behaves in three ways: at 0 the read times out at once, at -1 it waits without limit, and below -1 it throws `ArgumentOutOfRangeException`. None of these is modelled; `Event.line` is whatever the read returned.
- JSON (de)serialisation and the `File` calls: the result file is `Option<seq<GameResult>>`. A file that decodes to null, which the code reads as an empty list, is not distinguished from an empty one. Loading the dictionary from a file, and the missing-file exception, are replaced by a given `set<string>`.
- `ToLower`, `Trim` and the case-insensitive dictionary comparison: all input is taken as already lower-cased and trimmed, and the dictionary is compared exactly.
- `StartsWith("/")` (Game.cs:170, 239) is culture-sensitive in .NET, so a line with an ignorable code point before `/` counts as a command there. `IsCommand` tests the first character only. Either way such a line only leads to asking again.
- 32-bit `int` overflow of counters and scores: counts are unbounded naturals.
- `Engine.Game.Start`: requires an empty attempt log. The code plays one round per `Game` object, whose constructor starts the log empty.
- `Engine.TableOfBestPlayers`: the enumeration order of the score dictionary is a parameter, a duplicate-free sequence of exactly its keys. The model does not prove that ties keep that order, although `OrderByDescending` is stable and `InsertByWins` keeps ties in order.
- Dictionary enumeration order: a .NET dictionary with no removals enumerates keys in insertion order. The model takes this as `Distinct`, first occurrence first. This order decides which error message `IsWordValid` and the `num` loop report.
- `Legacy.ReadSourceWordAsWritten`: when the input runs out, `Console.ReadLine()` returns null and `.ToLower()` faults. The model returns `None` there.
- `Legacy.Run`: the script reads the source word and the turns from one console. The model takes them as two sequences.
- `Legacy.Turn`: the two per-player loops of the script differ only in their messages and variable names. One method models both.

## Findings

| source | as written | input that shows it | evidently intended | confidence | as-written member | corrected member |
|---|---|---|---|---|---|---|
| Game.cs:68-72 | `HandleCommand(input, …)` is called before the `input == null` branch, and calls `input.StartsWith("/")` | a read that times out while the clock still runs, e.g. 5 s into the turn | handle null first, so the turn ends on a timed-out read | not executed | Engine.TimedOutReadFaults | Engine.Game.PlayerTurn |
| Program.cs:45-51 | a word re-read because its length is out of range is not looked up in the dictionary | dictionary {cat}, lines "cat" then "aardvarks": the source word becomes "aardvarks" | read until a line is both a dictionary word and 8–30 letters long | not executed | Legacy.ReReadWordIsNotLookedUp | Legacy.ReadSourceWord |
