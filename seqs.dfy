/** An optional value: JavaScript's `undefined` on one side, a value on the other. */
module Optional {

  datatype Option<+T> = None | Some(value: T)
}

/** Searching sequences the way `Array.prototype.indexOf` does. */
module Seqs {

  /** The position of the first occurrence of `x` in `s`, or -1 when there is none. */
  function IndexOf<T(==)>(s: seq<T>, x: T): (i: int)
    ensures -1 <= i < |s|
    ensures i == -1 <==> x !in s
    ensures 0 <= i ==> s[i] == x && x !in s[..i]
  {
    if |s| == 0 then -1
    else if s[0] == x then 0
    else
      var j := IndexOf(s[1..], x);
      assert j >= 0 ==> s[..j + 1] == [s[0]] + s[1..][..j];
      if j == -1 then -1 else j + 1
  }

  /** A position holding `x` with no earlier `x` is the one `IndexOf` finds. */
  lemma IndexOfIsFirst<T>(s: seq<T>, x: T, k: nat)
    requires k < |s| && s[k] == x && x !in s[..k]
    ensures IndexOf(s, x) == k
  {
  }
}
