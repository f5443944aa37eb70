/** Counting the declared members that carry a modifier, and collecting names
    into a set: the specifications the reflector's counting and collecting
    loops are proved against. */
module Counting {

  /** The number of elements of `s` that satisfy `p`. */
  function Count<T>(s: seq<T>, p: T -> bool): nat
  {
    if s == [] then 0 else (if p(s[0]) then 1 else 0) + Count(s[1..], p)
  }

  /** Counting one more element, as a loop over `s` does. */
  lemma {:induction false} CountSnoc<T>(s: seq<T>, x: T, p: T -> bool)
    ensures Count(s + [x], p) == Count(s, p) + (if p(x) then 1 else 0)
  {
    if s != [] {
      assert (s + [x])[1..] == s[1..] + [x];
      CountSnoc(s[1..], x, p);
    }
  }

  /** A count lies between zero and the number of elements. */
  lemma {:induction false} CountBounded<T>(s: seq<T>, p: T -> bool)
    ensures 0 <= Count(s, p) <= |s|
  {
    if s != [] {
      CountBounded(s[1..], p);
    }
  }

  /** The count is zero exactly when no element satisfies `p`. */
  lemma {:induction false} CountZeroIff<T>(s: seq<T>, p: T -> bool)
    ensures Count(s, p) == 0 <==> forall i :: 0 <= i < |s| ==> !p(s[i])
  {
    if s != [] {
      CountZeroIff(s[1..], p);
      assert forall i :: 1 <= i < |s| ==> s[i] == s[1..][i - 1];
    }
  }

  /** The count is the number of elements exactly when every element
      satisfies `p`. */
  lemma {:induction false} CountFullIff<T>(s: seq<T>, p: T -> bool)
    ensures Count(s, p) == |s| <==> forall i :: 0 <= i < |s| ==> p(s[i])
  {
    if s != [] {
      CountFullIff(s[1..], p);
      CountBounded(s[1..], p);
      assert forall i :: 1 <= i < |s| ==> s[i] == s[1..][i - 1];
    }
  }

  /** The set of the elements of `s`: what adding each of them to an initially
      empty `HashSet` leaves. */
  function Elements<T>(s: seq<T>): set<T>
  {
    if s == [] then {} else Elements(s[..|s| - 1]) + {s[|s| - 1]}
  }

  /** `Elements` holds exactly the elements of the sequence. */
  lemma {:induction false} ElementsIff<T>(s: seq<T>, x: T)
    ensures x in Elements(s) <==> x in s
  {
    if s != [] {
      ElementsIff(s[..|s| - 1], x);
      assert s == s[..|s| - 1] + [s[|s| - 1]];
    }
  }

  /** Every element of the sequence is collected. */
  lemma {:induction false} ElementsContains<T>(s: seq<T>)
    ensures forall i :: 0 <= i < |s| ==> s[i] in Elements(s)
  {
    forall i | 0 <= i < |s|
      ensures s[i] in Elements(s)
    {
      ElementsIff(s, s[i]);
    }
  }

  /** Collecting removes duplicates and never invents elements, so the set is
      no larger than the sequence. */
  lemma {:induction false} ElementsBounded<T>(s: seq<T>)
    ensures |Elements(s)| <= |s|
  {
    if s != [] {
      ElementsBounded(s[..|s| - 1]);
    }
  }
}
