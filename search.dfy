/** The first-match scan shared by every natural-key lookup. */
module Search {
  import opened Base

  /**
   * The index of the first element satisfying `p`, as a `for` loop that
   * returns on its first hit finds it; `None` when no element does.
   */
  function FirstIndex<T>(s: seq<T>, p: T -> bool): (r: Option<nat>)
    ensures r.Some? ==> r.value < |s| && p(s[r.value])
    ensures r.Some? ==> forall j :: 0 <= j < r.value ==> !p(s[j])
    ensures r.None? <==> forall j :: 0 <= j < |s| ==> !p(s[j])
    decreases |s|
  {
    if |s| == 0 then None
    else if p(s[0]) then Some(0)
    else match FirstIndex(s[1..], p)
      case None => None
      case Some(i) => Some(i + 1)
  }

  /** An index that satisfies `p` with no earlier one that does is the one found. */
  lemma FirstIndexIs<T>(s: seq<T>, p: T -> bool, i: nat)
    requires i < |s| && p(s[i])
    requires forall j :: 0 <= j < i ==> !p(s[j])
    ensures FirstIndex(s, p) == Some(i)
  {
    var r := FirstIndex(s, p);
    assert r.Some?;
    assert !(r.value < i) && !(i < r.value);
  }

  /** A first match stays the first match when elements are appended. */
  lemma {:induction false} FirstIndexAppend<T>(s: seq<T>, t: seq<T>, p: T -> bool)
    ensures FirstIndex(s, p).Some? ==> FirstIndex(s + t, p) == FirstIndex(s, p)
    ensures FirstIndex(s, p).None? ==>
      FirstIndex(s + t, p) == match FirstIndex(t, p) case None => None case Some(i) => Some(|s| + i)
    decreases |s|
  {
    if |s| > 0 {
      assert (s + t)[1..] == s[1..] + t;
      FirstIndexAppend(s[1..], t, p);
    } else {
      assert s + t == t;
    }
  }
}
