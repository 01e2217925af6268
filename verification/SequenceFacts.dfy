/** Facts about concatenation and slicing that the solver needs by name. */
module SequenceFacts {

  lemma Associate<T>(a: seq<T>, b: seq<T>, c: seq<T>)
    ensures (a + b) + c == a + (b + c)
  {
  }

  lemma ConsParts<T>(x: T, rest: seq<T>)
    ensures ([x] + rest)[0] == x && ([x] + rest)[1..] == rest
  {
  }

  lemma SnocParts<T>(init: seq<T>, x: T)
    ensures (init + [x])[|init|] == x && (init + [x])[..|init|] == init
  {
  }

  lemma ConsOf<T>(s: seq<T>)
    requires s != []
    ensures s == [s[0]] + s[1..]
  {
  }

  lemma SnocOf<T>(s: seq<T>)
    requires s != []
    ensures s == s[..|s| - 1] + [s[|s| - 1]]
  {
  }

  lemma EmptyPrefix<T>(s: seq<T>)
    ensures [] + s == s
  {
  }

  lemma EmptySuffix<T>(s: seq<T>)
    ensures s + [] == s
  {
  }

  /** The elements from lo up to hi. */
  function Range<T>(s: seq<T>, lo: nat, hi: nat): (r: seq<T>)
    requires lo <= hi <= |s|
    ensures |r| == hi - lo
  {
    seq(hi - lo, i requires 0 <= i < hi - lo => s[lo + i])
  }

  lemma RangeConcat<T>(s: seq<T>, a: nat, b: nat, c: nat)
    requires a <= b <= c <= |s|
    ensures Range(s, a, b) + Range(s, b, c) == Range(s, a, c)
  {
  }

  lemma RangeAll<T>(s: seq<T>)
    ensures Range(s, 0, |s|) == s
  {
  }

  lemma SplitAt<T>(s: seq<T>, i: nat)
    requires i < |s|
    ensures s == s[..i] + ([s[i]] + s[i + 1..])
  {
  }

  lemma TakeAll<T>(s: seq<T>)
    ensures s[..|s|] == s
  {
  }

  lemma TakeNext<T>(s: seq<T>, i: nat)
    requires i < |s|
    ensures s[..i + 1] == s[..i] + [s[i]]
  {
  }

  /** The prefix of length i + 1, taken apart at its last element. */
  lemma TakeInit<T>(s: seq<T>, i: nat)
    requires i < |s|
    ensures s[..i + 1][..i] == s[..i] && s[..i + 1][i] == s[i]
  {
  }

  lemma TailSlices<T>(s: seq<T>, j: nat)
    requires j + 1 < |s|
    ensures s[..j + 1] == [s[0]] + s[1..][..j] && s[1..][j + 1..] == s[j + 2..] && s[1..][j] == s[j + 1]
  {
  }
}
