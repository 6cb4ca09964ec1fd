/** Small sequence helpers shared by the room-client model: an Option type for
    JavaScript's null/undefined, the Array.prototype.indexOf search and distinctness. */
module Common {

  /** `null` / `undefined` on the JavaScript side. */
  datatype Option<T> = None | Some(value: T)

  /** Array.prototype.indexOf with strict equality: the first index holding `x`, or -1. */
  function IndexOf<T(==)>(s: seq<T>, x: T): (r: int)
    ensures -1 <= r < |s|
    ensures r == -1 <==> x !in s
    ensures 0 <= r ==> s[r] == x && x !in s[..r]
  {
    if |s| == 0 then -1
    else if s[0] == x then 0
    else
      var k := IndexOf(s[1..], x);
      if k == -1 then -1
      else
        assert s[..k + 1] == [s[0]] + s[1..][..k];
        k + 1
  }

  /** No value occurs twice in `s`. */
  predicate Distinct<T(==)>(s: seq<T>) {
    forall i, j :: 0 <= i < j < |s| ==> s[i] != s[j]
  }

  /** In a sequence without repetitions, `IndexOf` finds the one position holding `x`. */
  lemma {:induction false} IndexOfDistinct<T>(s: seq<T>, i: nat)
    requires Distinct(s) && i < |s|
    ensures IndexOf(s, s[i]) == i
  {
    assert s[i] in s;
    forall j | 0 <= j < |s| && s[j] == s[i] ensures j == i {
    }
  }
}
