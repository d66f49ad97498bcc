/**
 * The document store's query primitives over a collection held as a sequence
 * of documents in natural (insertion) order: find-first, find-all and the two
 * array update operators the handlers use.
 */
module Store {
  import opened Shared

  /** Position of the first document matching `p`: what `findOne(filter)` returns. */
  function FirstIndex<T>(s: seq<T>, p: T -> bool): (r: Option<nat>)
    ensures r.Some? ==> r.value < |s| && p(s[r.value])
    ensures r.Some? ==> forall j :: 0 <= j < r.value ==> !p(s[j])
    ensures r.None? <==> forall j :: 0 <= j < |s| ==> !p(s[j])
    decreases |s|
  {
    if |s| == 0 then None
    else if p(s[0]) then Some(0)
    else
      match FirstIndex(s[1..], p)
      case None => None
      case Some(k) => Some(k + 1)
  }

  /**
   * The documents matching `p`: what `find(filter)` returns. Each matching
   * document appears exactly as often as in `s` (once, for a collection of
   * distinct documents), and the body keeps collection order.
   */
  function Filter<T(==,!new)>(s: seq<T>, p: T -> bool): (r: seq<T>)
    ensures |r| <= |s|
    ensures forall i :: 0 <= i < |r| ==> r[i] in s && p(r[i])
    ensures forall i :: 0 <= i < |s| && p(s[i]) ==> s[i] in r
    ensures forall x :: multiset(r)[x] == if p(x) then multiset(s)[x] else 0
    decreases |s|
  {
    if |s| == 0 then []
    else
      assert s == [s[0]] + s[1..];
      if p(s[0]) then [s[0]] + Filter(s[1..], p)
      else Filter(s[1..], p)
  }

  /**
   * `r` holds exactly the elements of `s` that satisfy `p`, each as many
   * times as `s` does.
   */
  ghost predicate IsFilterOf<T(!new)>(r: seq<T>, s: seq<T>, p: T -> bool) {
    && (forall i :: 0 <= i < |r| ==> r[i] in s && p(r[i]))
    && (forall i :: 0 <= i < |s| && p(s[i]) ==> s[i] in r)
    && (forall x :: multiset(r)[x] == if p(x) then multiset(s)[x] else 0)
  }

  /** Number of occurrences of `x` in `s`. */
  function Count<T(==)>(s: seq<T>, x: T): nat
    decreases |s|
  {
    if |s| == 0 then 0 else (if s[0] == x then 1 else 0) + Count(s[1..], x)
  }

  lemma {:induction false} CountAppend<T>(s: seq<T>, t: seq<T>, x: T)
    ensures Count(s + t, x) == Count(s, x) + Count(t, x)
    decreases |s|
  {
    if |s| == 0 {
      assert s + t == t;
    } else {
      assert (s + t)[1..] == s[1..] + t;
      CountAppend(s[1..], t, x);
    }
  }

  lemma {:induction false} CountZero<T>(s: seq<T>, x: T)
    ensures Count(s, x) == 0 <==> x !in s
    decreases |s|
  {
    if |s| > 0 {
      CountZero(s[1..], x);
      assert s == [s[0]] + s[1..];
    }
  }

  /** `$addToSet`: append `x` unless the array already holds it. */
  function AddToSet<T(==,!new)>(s: seq<T>, x: T): (r: seq<T>)
    ensures x in r
    ensures Count(r, x) == if Count(s, x) == 0 then 1 else Count(s, x)
    ensures forall y :: y != x ==> Count(r, y) == Count(s, y)
    ensures forall y :: y in r <==> y in s || y == x
  {
    CountZero(s, x);
    if x in s then s
    else
      assert [x][1..] == [];
      CountAppend(s, [x], x);
      assert forall y :: y != x ==> Count(s + [x], y) == Count(s, y) by {
        forall y | y != x
          ensures Count(s + [x], y) == Count(s, y)
        {
          CountAppend(s, [x], y);
          assert Count([x], y) == Count([x][1..], y) == 0;
        }
      }
      s + [x]
  }

  /** `$addToSet` is idempotent: adding the same element twice changes nothing more. */
  lemma AddToSetIdempotent<T(!new)>(s: seq<T>, x: T)
    ensures AddToSet(AddToSet(s, x), x) == AddToSet(s, x)
  {
  }

  /** `$push`: append `x` at the end of the array, duplicates allowed. */
  function Push<T>(s: seq<T>, x: T): (r: seq<T>)
    ensures |r| == |s| + 1 && r[|s|] == x && r[..|s|] == s
  {
    s + [x]
  }
}
