/**
 * Counting occurrences in a sequence. Both revisions of the game build a
 * dictionary by walking a sequence and counting each element: the letters of
 * a word, the winners of a history of games. This module gives the map such a
 * loop computes, the order in which its keys are inserted, and the fact that
 * its values add up to the length of the sequence.
 */
module Counting {

  /** No element occurs twice. */
  predicate NoDuplicates<T(==)>(s: seq<T>) {
    forall i, j :: 0 <= i < j < |s| ==> s[i] != s[j]
  }

  /**
   * The distinct elements of `s` in order of first occurrence: the order in
   * which a dictionary filled by walking `s` enumerates its keys.
   */
  function Distinct<T(==)>(s: seq<T>): seq<T> {
    if s == [] then []
    else
      var d := Distinct(s[..|s| - 1]);
      var last := s[|s| - 1];
      if last in s[..|s| - 1] then d else d + [last]
  }

  /** The distinct elements have no duplicates, are drawn from `s`, and cover `s`. */
  lemma {:induction false} DistinctSpec<T>(s: seq<T>)
    ensures NoDuplicates(Distinct(s))
    ensures forall i :: 0 <= i < |Distinct(s)| ==> Distinct(s)[i] in s
    ensures forall i :: 0 <= i < |s| ==> s[i] in Distinct(s)
    ensures |Distinct(s)| <= |s|
  {
    if s != [] {
      var init, last := s[..|s| - 1], s[|s| - 1];
      assert s == init + [last];
      DistinctSpec(init);
      var d := Distinct(init);
      if last !in init {
        assert Distinct(s) == d + [last];
        assert forall i :: 0 <= i < |d| ==> d[i] in init;
      }
      forall i | 0 <= i < |s| ensures s[i] in Distinct(s) {
        if i < |init| {
          assert s[i] == init[i];
        }
      }
    }
  }

  /**
   * Each element of `s` mapped to its number of occurrences in `s`, built as
   * a dictionary is built by walking `s`: a new key starts at one, a known
   * key goes up by one.
   */
  function Tally<T(==)>(s: seq<T>): map<T, nat> {
    if s == [] then map[]
    else
      var m := Tally(s[..|s| - 1]);
      var last := s[|s| - 1];
      m[last := if last in m then m[last] + 1 else 1]
  }

  /** The count `m` holds for `x`, zero for a key it does not hold. */
  function CountOf<T(==)>(m: map<T, nat>, x: T): nat {
    if x in m then m[x] else 0
  }

  /** Sum of `m` over the listed keys; a key `m` does not hold adds nothing. */
  function SumOver<T(==)>(m: map<T, nat>, keys: seq<T>): nat {
    if keys == [] then 0
    else SumOver(m, keys[..|keys| - 1]) + CountOf(m, keys[|keys| - 1])
  }

  /** Extending the summed prefix of the keys by one key adds that key's value. */
  lemma SumOverStep<T>(m: map<T, nat>, keys: seq<T>, i: nat)
    requires i < |keys| && keys[i] in m
    ensures SumOver(m, keys[..i + 1]) == SumOver(m, keys[..i]) + m[keys[i]]
  {
    assert keys[..i + 1][..i] == keys[..i];
  }

  /** Counting one more element: the dictionary update `counts[x] = c + 1`, or `counts[x] = 1` for a new key. */
  lemma TallySnoc<T>(s: seq<T>, x: T)
    ensures Tally(s + [x]) == Tally(s)[x := if x in Tally(s) then Tally(s)[x] + 1 else 1]
  {
    var t := s + [x];
    assert t[..|t| - 1] == s;
  }

  /** The tally of an element is its multiplicity in the sequence; an element that does not occur is not a key. */
  lemma {:induction false} TallyCount<T>(s: seq<T>, x: T)
    ensures x in Tally(s) <==> x in s
    ensures x in Tally(s) ==> Tally(s)[x] == multiset(s)[x]
  {
    if s != [] {
      var init, last := s[..|s| - 1], s[|s| - 1];
      assert s == init + [last];
      TallyCount(init, x);
      TallySnoc(init, last);
    }
  }

  /** Every element of the key order is a key of the tally. */
  lemma DistinctKey<T>(s: seq<T>, i: nat)
    requires i < |Distinct(s)|
    ensures Distinct(s)[i] in Tally(s)
  {
    DistinctSpec(s);
    TallyCount(s, Distinct(s)[i]);
  }

  /** The keys of a tally are exactly the elements counted. */
  lemma TallyKeys<T>(s: seq<T>)
    ensures forall x :: x in Tally(s) <==> x in s
    ensures forall i :: 0 <= i < |s| ==> s[i] in Tally(s)
  {
    forall x ensures x in Tally(s) <==> x in s {
      TallyCount(s, x);
    }
    forall i | 0 <= i < |s| ensures s[i] in Tally(s) {
      TallyCount(s, s[i]);
    }
  }

  /** Raising one key by one raises the sum over a duplicate-free key list by one, if the key is listed. */
  lemma {:induction false} SumOverBump<T>(m: map<T, nat>, m': map<T, nat>, keys: seq<T>, x: T)
    requires NoDuplicates(keys)
    requires forall k :: k in keys ==> k in m && k in m'
    requires forall k :: k in keys && k != x ==> m'[k] == m[k]
    requires x in keys ==> m'[x] == m[x] + 1
    ensures SumOver(m', keys) == SumOver(m, keys) + (if x in keys then 1 else 0)
  {
    if keys != [] {
      var init, last := keys[..|keys| - 1], keys[|keys| - 1];
      assert keys == init + [last];
      assert last !in init;
      SumOverBump(m, m', init, x);
    }
  }

  /** The counts of a tally, summed over its keys, give the length of the sequence counted. */
  lemma {:induction false} TallySum<T>(s: seq<T>)
    ensures SumOver(Tally(s), Distinct(s)) == |s|
  {
    if s != [] {
      var init, x := s[..|s| - 1], s[|s| - 1];
      assert s == init + [x];
      TallySum(init);
      TallySnoc(init, x);
      TallyKeys(init);
      TallyKeys(s);
      DistinctSpec(init);
      var d := Distinct(init);
      SumOverBump(Tally(init), Tally(s), d, x);
      if x !in init {
        assert Distinct(s) == d + [x];
        assert (d + [x])[..|d|] == d;
      }
    }
  }

  /** A proper prefix of the keys, together with the next key, sums to at most the whole. */
  lemma {:induction false} SumOverPrefix<T>(m: map<T, nat>, keys: seq<T>, i: nat)
    requires forall k :: k in keys ==> k in m
    requires i < |keys|
    ensures SumOver(m, keys[..i]) + m[keys[i]] <= SumOver(m, keys)
  {
    var init := keys[..|keys| - 1];
    if i < |keys| - 1 {
      SumOverPrefix(m, init, i);
      assert init[..i] == keys[..i];
    } else {
      assert init == keys[..i];
    }
  }
}
