/** Ways to regroup a concatenation. Each is plain to the verifier alone, and
    costly in the middle of a larger proof. */
module Sequences {
  lemma Regrouped<T>(one: seq<T>, two: seq<T>, three: seq<T>)
    ensures one + two + three == one + (two + three)
  {
  }

  lemma Rejoined<T>(s: seq<T>, i: nat)
    requires i <= |s|
    ensures s[..i] + s[i..] == s
  {
  }

  lemma LastApart<T>(s: seq<T>)
    requires s != []
    ensures s[..|s| - 1] + [s[|s| - 1]] == s
  {
  }

  lemma Pair<T>(one: T, two: T)
    ensures [one] + [two] == [one, two]
  {
  }

  lemma AppendTwo<T>(s: seq<T>, one: T, two: T)
    ensures s + [one] + [two] == s + [one, two]
  {
  }

  lemma AppendThree<T>(s: seq<T>, one: T, two: T, three: T)
    ensures s + [one] + [two] + [three] == s + [one, two, three]
  {
  }
}
