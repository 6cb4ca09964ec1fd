/** The lastN active-speaker window: the names of the remote peers whose video the
    client keeps playing, most recent speaker first. */
module Speakers {
  import opened Common

  /** ROOM_OPTIONS.lastN: the capacity of the window. */
  const LastN: nat := 3

  /** A new speaker arriving at a full window pushes its tail out. */
  predicate Evicts(w: seq<string>, p: string) {
    p !in w && |w| == LastN
  }

  /** What `handleActiveSpeaker(p)` keeps of the old window behind the speaker: the
      window with the first occurrence of a listed speaker spliced out, or, for a new
      speaker, the window with its tail popped when it is full. */
  function Behind(w: seq<string>, p: string): (r: seq<string>)
    ensures p in w ==> |r| == |w| - 1 && multiset(r) + multiset{p} == multiset(w)
    ensures p !in w ==> |r| == if Evicts(w, p) then |w| - 1 else |w|
    ensures p !in w ==> r <= w
  {
    var index := IndexOf(w, p);
    if index > -1 then
      assert w == w[..index] + [w[index]] + w[index + 1..];
      w[..index] + w[index + 1..]
    else if |w| == LastN then w[..|w| - 1]
    else w
  }

  /** The window after `handleActiveSpeaker(p)` has found every peer it looks up. */
  function Promote(w: seq<string>, p: string): (r: seq<string>)
    ensures |r| > 0 && r[0] == p
    ensures p in w ==> |r| == |w| && multiset(r) == multiset(w)
    ensures p !in w ==> |r| == if Evicts(w, p) then |w| else |w| + 1
  {
    [p] + Behind(w, p)
  }

  /** `s` with every occurrence of `x` removed, order kept. */
  function Without(s: seq<string>, x: string): seq<string> {
    if |s| == 0 then [] else (if s[0] == x then [] else [s[0]]) + Without(s[1..], x)
  }

  lemma {:induction false} WithoutAppend(a: seq<string>, b: seq<string>, x: string)
    ensures Without(a + b, x) == Without(a, x) + Without(b, x)
  {
    if |a| > 0 {
      assert (a + b)[1..] == a[1..] + b;
      WithoutAppend(a[1..], b, x);
    } else {
      assert a + b == b;
    }
  }

  lemma {:induction false} WithoutAbsent(s: seq<string>, x: string)
    requires x !in s
    ensures Without(s, x) == s
  {
    if |s| > 0 {
      WithoutAbsent(s[1..], x);
    }
  }

  /** A window of at most LastN names stays within LastN. */
  lemma PromoteBounded(w: seq<string>, p: string)
    requires |w| <= LastN
    ensures |Promote(w, p)| <= LastN
  {
  }

  /** Splicing one position out of a sequence without repetitions leaves a sequence
      without repetitions that no longer holds the removed value. */
  lemma RemoveAtDistinct(w: seq<string>, i: nat)
    requires Distinct(w) && i < |w|
    ensures Distinct(w[..i] + w[i + 1..]) && w[i] !in w[..i] + w[i + 1..]
  {
    var rest := w[..i] + w[i + 1..];
    forall a | 0 <= a < |rest| ensures rest[a] == w[if a < i then a else a + 1] {
    }
  }

  /** The speaker occurs in the new window as often as before if it was listed, and once if it was new;
      so a window without repetitions keeps the speaker exactly once. */
  lemma {:induction false} PromoteCountsSpeaker(w: seq<string>, p: string)
    ensures multiset(Promote(w, p))[p] == if p in w then multiset(w)[p] else 1
    ensures Distinct(w) ==> Distinct(Promote(w, p)) && multiset(Promote(w, p))[p] == 1
  {
    var rest := Behind(w, p);
    assert multiset(Promote(w, p)) == multiset{p} + multiset(rest);
    if p in w {
      var i := IndexOf(w, p);
      if Distinct(w) {
        RemoveAtDistinct(w, i);
        assert multiset(rest)[p] == 0;
      }
    } else {
      assert forall a :: 0 <= a < |rest| ==> rest[a] == w[a];
      assert p !in rest;
      assert multiset(rest)[p] == 0;
    }
  }

  /** Splicing out one occurrence of `x` does not change what remains once every `x` is removed. */
  lemma {:induction false} SpliceWithout(w: seq<string>, i: nat, x: string)
    requires i < |w| && w[i] == x
    ensures Without(w[..i] + w[i + 1..], x) == Without(w, x)
  {
    WithoutAppend(w[..i], w[i + 1..], x);
    assert w == w[..i] + ([w[i]] + w[i + 1..]);
    WithoutAppend(w[..i], [w[i]] + w[i + 1..], x);
    WithoutAppend([w[i]], w[i + 1..], x);
    assert Without([w[i]], x) == [];
  }

  /** The other members keep their relative order; the only one that can leave is
      the evicted tail. */
  lemma {:induction false} PromoteKeepsOrder(w: seq<string>, p: string)
    ensures p in w ==> Without(Promote(w, p), p) == Without(w, p)
    ensures p !in w ==> Without(Promote(w, p), p) == if Evicts(w, p) then w[..LastN - 1] else w
  {
    var rest := Behind(w, p);
    WithoutAppend([p], rest, p);
    assert Without([p], p) == [];
    if p in w {
      SpliceWithout(w, IndexOf(w, p), p);
    } else {
      assert rest == if Evicts(w, p) then w[..LastN - 1] else w;
      WithoutAbsent(rest, p);
    }
  }

  /** A full window of distinct names loses exactly its tail when a new speaker arrives. */
  lemma PromoteEvictsTail(w: seq<string>, p: string)
    requires Evicts(w, p) && Distinct(w)
    ensures w[LastN - 1] !in Promote(w, p)
    ensures forall q :: q in w && q != w[LastN - 1] ==> q in Promote(w, p)
  {
    var r := Promote(w, p);
    assert r == [p] + w[..LastN - 1];
    forall a | 0 <= a < |r| ensures r[a] != w[LastN - 1] {
      if a > 0 {
        assert r[a] == w[a - 1];
      }
    }
    forall q | q in w && q != w[LastN - 1] ensures q in r {
      var k :| 0 <= k < |w| && w[k] == q;
      assert r[k + 1] == q;
    }
  }

  /** The `room-data-receive` branch: an empty `lastN` from the server is ignored,
      otherwise the window becomes the received list truncated to LastN entries. */
  function Synced(w: seq<string>, received: seq<string>): (r: seq<string>)
    ensures |received| == 0 ==> r == w
    ensures |received| > 0 ==> r <= received && |r| == if |received| > LastN then LastN else |received|
    ensures |w| <= LastN ==> |r| <= LastN
  {
    if |received| > 0 then
      if |received| > LastN then received[..LastN] else received
    else w
  }
}
