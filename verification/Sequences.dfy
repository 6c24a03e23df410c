/** When one more element may stand in front of a sequence instead of behind it. */
module Sequences {

  predicate AllAre<T(==)>(s: seq<T>, x: T) {
    forall i {:trigger s[i]} :: 0 <= i < |s| ==> s[i] == x
  }

  lemma {:induction false} CommutingAreSame<T>(s: seq<T>, x: T, i: nat)
    requires [x] + s == s + [x] && i < |s|
    ensures s[i] == x
    decreases i
  {
    assert s[i] == (s + [x])[i] == ([x] + s)[i];
    if i > 0 {
      CommutingAreSame(s, x, i - 1);
    }
  }

  lemma SameCommute<T>(s: seq<T>, x: T)
    requires AllAre(s, x)
    ensures [x] + s == s + [x]
  {
    forall i | 0 <= i <= |s| ensures ([x] + s)[i] == (s + [x])[i] {
      assert i > 0 ==> s[i - 1] == x;
    }
  }

  /** An element commutes with a sequence exactly if it is all the sequence consists of. */
  lemma CommutesIff<T>(s: seq<T>, x: T)
    ensures [x] + s == s + [x] <==> AllAre(s, x)
  {
    if [x] + s == s + [x] {
      forall i | 0 <= i < |s| ensures s[i] == x {
        CommutingAreSame(s, x, i);
      }
    } else if AllAre(s, x) {
      SameCommute(s, x);
    }
  }

  /** So between the same front, which of the two comes first matters exactly if they differ. */
  lemma OvertakesUnlessSame<T>(front: seq<T>, s: seq<T>, x: T)
    ensures front + [x] + s == front + s + [x] <==> AllAre(s, x)
  {
    assert front + [x] + s == front + ([x] + s) && front + s + [x] == front + (s + [x]);
    assert (front + ([x] + s))[|front|..] == [x] + s && (front + (s + [x]))[|front|..] == s + [x];
    CommutesIff(s, x);
  }
}
