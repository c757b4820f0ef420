/**
 Small shared vocabulary of the shop model: optional values, the two
 Django/Python failures the core can raise, Python's float-to-int
 truncation, and an order-preserving filter used for list comprehensions.
 */
module Common {

  datatype Option<T> = None | Some(value: T)

  /** The exceptions the modelled code can raise and does not catch. */
  datatype Error =
    | DoesNotExist   // Model.objects.get(...) found no row
    | TypeError      // comparison of None with an int (`None > 0`)

  datatype Result<T> = Ok(value: T) | Err(error: Error)

  /** Outcome of a view or cart operation that returns nothing useful. */
  datatype Status = Done | Failed(error: Error)

  /** Python's int() on a float: truncation toward zero. */
  function Trunc(x: real): (r: int)
    ensures 0.0 <= x ==> r as real <= x < r as real + 1.0
    ensures x < 0.0 ==> r as real - 1.0 < x <= r as real
  {
    if x >= 0.0 then x.Floor else -((-x).Floor)
  }

  /** `[i for i in s if keep(i)]`: keeps, in order, the elements satisfying keep. */
  function Filter<T(!new)>(s: seq<T>, keep: T -> bool): (r: seq<T>)
    ensures |r| <= |s|
    ensures forall x :: multiset(r)[x] == if keep(x) then multiset(s)[x] else 0
    ensures |s| == 1 ==> r == if keep(s[0]) then s else []
  {
    if s == [] then []
    else
      var rest := Filter(s[1..], keep);
      assert s == [s[0]] + s[1..];
      (if keep(s[0]) then [s[0]] else []) + rest
  }

  /**
   Filtering distributes over concatenation: the kept elements of a come
   before the kept elements of b, so together with the one-element case of
   Filter the result keeps the input order.
   */
  lemma {:induction false} FilterConcat<T(!new)>(a: seq<T>, b: seq<T>, keep: T -> bool)
    ensures Filter(a + b, keep) == Filter(a, keep) + Filter(b, keep)
  {
    if a == [] {
      assert a + b == b;
    } else {
      var head := if keep(a[0]) then [a[0]] else [];
      assert (a + b)[0] == a[0] && (a + b)[1..] == a[1..] + b;
      FilterFirst(a + b, keep);
      FilterFirst(a, keep);
      FilterConcat(a[1..], b, keep);
      ConcatAssoc(head, Filter(a[1..], keep), Filter(b, keep));
    }
  }

  lemma ConcatAssoc<T>(x: seq<T>, y: seq<T>, z: seq<T>)
    ensures x + (y + z) == (x + y) + z
  {
  }

  /** One unfolding of Filter at the front. */
  lemma FilterFirst<T(!new)>(s: seq<T>, keep: T -> bool)
    requires s != []
    ensures Filter(s, keep) == (if keep(s[0]) then [s[0]] else []) + Filter(s[1..], keep)
  {
  }

  /**
   The last position of s whose element satisfies found, the way a lookup
   on a unique column finds its row; None when no element does.
   */
  function FindLast<T>(s: seq<T>, found: T -> bool): (r: Option<nat>)
    ensures r.Some? ==> r.value < |s| && found(s[r.value])
    ensures r.Some? ==> forall j | r.value < j < |s| :: !found(s[j])
    ensures r.None? ==> forall j | 0 <= j < |s| :: !found(s[j])
  {
    if s == [] then None
    else if found(s[|s| - 1]) then Some(|s| - 1)
    else FindLast(s[..|s| - 1], found)
  }
}
