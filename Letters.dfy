/**
 * The letter-multiset matcher: a candidate word may use each letter of the
 * source word at most as often as the source word contains it.
 */
module Letters {
  import opened Counting

  /** Outcome of checking a word against a letter budget; the two failures are the two error messages the game prints. */
  datatype Verdict = Fits | Exceeds(letter: char) | Unavailable(letter: char)

  /** Every letter of `w` is in the budget, and occurs in `w` at most as often as the budget allows. */
  predicate WithinBudget(w: string, budget: map<char, nat>) {
    forall c :: c in w ==> c in budget && multiset(w)[c] <= budget[c]
  }

  /** Against the letter counts of a source word, the budget check is exactly multiset inclusion. */
  lemma WithinLettersOf(w: string, source: string)
    ensures WithinBudget(w, Tally(source)) <==> multiset(w) <= multiset(source)
  {
    var budget := Tally(source);
    if WithinBudget(w, budget) {
      forall c ensures multiset(w)[c] <= multiset(source)[c] {
        TallyCount(source, c);
        if c in w {
          assert budget[c] == multiset(source)[c];
        } else {
          assert c !in multiset(w);
        }
      }
    }
    if multiset(w) <= multiset(source) {
      forall c | c in w ensures c in budget && multiset(w)[c] <= budget[c] {
        assert c in multiset(w);
        assert c in multiset(source);
        TallyCount(source, c);
      }
    }
  }

  /**
   * Walk the keys in order and report the first key that is missing from
   * the budget or asks for more than the budget holds.
   */
  function Judge(keys: seq<char>, counts: map<char, nat>, budget: map<char, nat>): (v: Verdict)
    ensures v.Fits? <==> forall i :: 0 <= i < |keys| ==> keys[i] in budget && CountOf(counts, keys[i]) <= budget[keys[i]]
    ensures v.Unavailable? ==> v.letter in keys && v.letter !in budget
    ensures v.Exceeds? ==> v.letter in keys && v.letter in budget && CountOf(counts, v.letter) > budget[v.letter]
  {
    if keys == [] then Fits
    else if keys[0] !in budget then Unavailable(keys[0])
    else if CountOf(counts, keys[0]) > budget[keys[0]] then Exceeds(keys[0])
    else
      var v := Judge(keys[1..], counts, budget);
      assert forall i :: 1 <= i < |keys| ==> keys[i] == keys[1..][i - 1];
      v
  }

  /** Judging a suffix of the keys looks at its first key and then at the rest. */
  lemma JudgeFrom(keys: seq<char>, counts: map<char, nat>, budget: map<char, nat>, i: nat)
    requires i < |keys|
    ensures Judge(keys[i..], counts, budget)
         == if keys[i] !in budget then Unavailable(keys[i])
            else if CountOf(counts, keys[i]) > budget[keys[i]] then Exceeds(keys[i])
            else Judge(keys[i + 1..], counts, budget)
  {
    assert keys[i..][1..] == keys[i + 1..];
  }

  /** Judging the distinct letters of a word by their counts accepts exactly the words within the budget. */
  lemma JudgeLetters(w: string, budget: map<char, nat>)
    ensures Judge(Distinct(w), Tally(w), budget).Fits? <==> WithinBudget(w, budget)
  {
    var d := Distinct(w);
    DistinctSpec(w);
    forall c | c in w ensures CountOf(Tally(w), c) == multiset(w)[c] {
      TallyCount(w, c);
    }
    if Judge(d, Tally(w), budget).Fits? {
      forall c | c in w ensures c in budget && multiset(w)[c] <= budget[c] {
        var i :| 0 <= i < |w| && w[i] == c;
        var j :| 0 <= j < |d| && d[j] == c;
      }
    }
  }
}
