/** Rules shared by both revisions of the game: whose turn it is, who wins, and the turn clock. */
module Rules {
  import opened Wrappers
  import opened Counting

  /** The two players, in the order they move. */
  datatype Seat = First | Second

  /** The other player. */
  function Opponent(s: Seat): Seat {
    if s == First then Second else First
  }

  /** The seat whose turn it is after `moves` accepted words: the first player starts and the players alternate. */
  function Mover(moves: nat): Seat {
    if moves == 0 then First else Opponent(Mover(moves - 1))
  }

  /** The player to move depends only on the parity of the number of accepted words. */
  lemma {:induction false} MoverParity(moves: nat)
    ensures Mover(moves) == (if moves % 2 == 0 then First else Second)
  {
    if moves > 0 {
      MoverParity(moves - 1);
    }
  }

  /**
   * The winner by parity of the number of accepted words: with an even count
   * the second player wins, with an odd count the first. So the winner is
   * never the player whose turn came next, and it is the player who gave
   * the last accepted word.
   */
  function WinnerSeat(attemptCount: nat): (s: Seat)
    ensures s != Mover(attemptCount)
    ensures attemptCount > 0 ==> s == Mover(attemptCount - 1)
  {
    MoverParity(attemptCount);
    if attemptCount % 2 == 0 then Second else First
  }

  /** Milliseconds left of a turn limit of `limitSeconds` after `elapsedMs` have passed. */
  function RemainingMs(limitSeconds: int, elapsedMs: int): (r: int)
    ensures r > 0 <==> elapsedMs < limitSeconds * 1000
    ensures 0 <= elapsedMs ==> r <= limitSeconds * 1000
  {
    limitSeconds * 1000 - elapsedMs
  }

  /** The clock check at the top of a turn loop: out of time, or time left with the whole seconds shown to the player. */
  datatype ClockReading = OutOfTime | TimeLeft(seconds: nat)

  /**
   * The turn clock. Time is up exactly when no millisecond remains; otherwise
   * the remaining time is shown rounded up to whole seconds, so at least one
   * second is shown while any time remains.
   */
  function IsTimeOver(remainingMs: int): (c: ClockReading)
    ensures c.OutOfTime? <==> remainingMs <= 0
    ensures c.TimeLeft? ==> 1 <= c.seconds && (c.seconds - 1) * 1000 < remainingMs <= c.seconds * 1000
  {
    if remainingMs <= 0 then OutOfTime else TimeLeft((remainingMs + 999) / 1000)
  }

  /**
   * One pass of a turn loop: the milliseconds of the turn elapsed at the
   * clock check, and the line the timed read returned (`None`: the read
   * timed out).
   */
  datatype Event = Event(elapsedMs: int, line: Option<string>)

  /** The clock check of an event finds time left of a turn limit of `limitSeconds`. */
  predicate ClockRunning(limitSeconds: int, ev: Event) {
    IsTimeOver(RemainingMs(limitSeconds, ev.elapsedMs)).TimeLeft?
  }

  /**
   * A turn, given the events left and the words accepted so far: the index
   * of the event that decided it and the word it accepted, or none when the
   * turn failed.
   */
  type Turn = (seq<Event>, seq<string>) -> Option<(nat, string)>

  /** A turn is decided by an event of the script it is given. */
  ghost predicate WithinScript(turn: Turn) {
    forall events, log :: turn(events, log).Some? ==> turn(events, log).value.0 < |events|
  }

  /** Every word a turn accepts is new to the log and satisfies `ok`. */
  ghost predicate AcceptsOnly(turn: Turn, ok: string -> bool) {
    forall events, log :: turn(events, log).Some? ==> turn(events, log).value.1 !in log && ok(turn(events, log).value.1)
  }

  /**
   * A round from the turn of `toMove` on: a turn that accepts a word logs it,
   * uses up the events up to the deciding one, and hands the round to the
   * other player; a turn that fails ends the round. The result is the final
   * log and the seat whose turn failed. (A turn decided past the script,
   * which `WithinScript` rules out, ends the round too.)
   */
  function Alternate(turn: Turn, events: seq<Event>, log: seq<string>, toMove: Seat): (seq<string>, Seat)
    decreases |events|
  {
    match turn(events, log)
    case Some((k, w)) =>
      if k < |events| then Alternate(turn, events[k + 1..], log + [w], Opponent(toMove)) else (log, toMove)
    case None => (log, toMove)
  }

  /** The player whose turn failed is the one to move after the final log, so never the winner by parity. */
  lemma {:induction false} AlternateLoser(turn: Turn, events: seq<Event>, log: seq<string>, toMove: Seat)
    requires toMove == Mover(|log|)
    ensures Alternate(turn, events, log, toMove).1 == Mover(|Alternate(turn, events, log, toMove).0|)
    ensures Alternate(turn, events, log, toMove).1 != WinnerSeat(|Alternate(turn, events, log, toMove).0|)
    decreases |events|
  {
    match turn(events, log)
    case Some((k, w)) =>
      if k < |events| {
        AlternateLoser(turn, events[k + 1..], log + [w], Opponent(toMove));
      }
    case None =>
  }

  /**
   * A round only extends the log, by at most one word per event, and when
   * every accepted word is new and satisfies `ok`, the log stays free of
   * duplicates and every word in it satisfies `ok`.
   */
  lemma {:induction false} AlternateKeepsLog(turn: Turn, ok: string -> bool, events: seq<Event>, log: seq<string>, toMove: Seat)
    requires WithinScript(turn) && AcceptsOnly(turn, ok)
    requires NoDuplicates(log) && forall i :: 0 <= i < |log| ==> ok(log[i])
    ensures NoDuplicates(Alternate(turn, events, log, toMove).0)
    ensures forall i :: 0 <= i < |Alternate(turn, events, log, toMove).0| ==> ok(Alternate(turn, events, log, toMove).0[i])
    ensures |log| <= |Alternate(turn, events, log, toMove).0| <= |log| + |events|
    ensures Alternate(turn, events, log, toMove).0[..|log|] == log
    decreases |events|
  {
    match turn(events, log)
    case Some((k, w)) =>
      var log' := log + [w];
      assert forall i :: 0 <= i < |log| ==> log'[i] == log[i];
      AlternateKeepsLog(turn, ok, events[k + 1..], log', Opponent(toMove));
      var final := Alternate(turn, events[k + 1..], log', Opponent(toMove)).0;
      assert final[..|log|] == final[..|log'|][..|log|];
    case None =>
  }
}
