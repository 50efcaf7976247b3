/** Small shared vocabulary: an optional value, string prefixes, and the
    order in which a hash map hands out its entries. */
module Common {

  /** A value that may be absent (Java `null`, JavaScript `undefined`). */
  datatype Option<T> = None | Some(value: T)

  /** `s` begins with `prefix` (Java `String.startsWith`). */
  predicate StartsWith(s: string, prefix: string)
  {
    |prefix| <= |s| && s[..|prefix|] == prefix
  }

  /** No element occurs twice in `xs`. */
  ghost predicate Distinct<T>(xs: seq<T>)
  {
    forall i, j :: 0 <= i < j < |xs| ==> xs[i] != xs[j]
  }

  /** `order` lists every element of `items` exactly once and nothing else:
      the shape of one pass over a hash map's keys or values. */
  ghost predicate IsListing<T(!new)>(order: seq<T>, items: set<T>)
  {
    && Distinct(order)
    && (forall x :: x in order <==> x in items)
  }

  /** A listing is as long as the set it lists. */
  lemma {:induction false} ListingLength<T(!new)>(order: seq<T>, items: set<T>)
    requires IsListing(order, items)
    ensures |order| == |items|
    decreases |order|
  {
    if order != [] {
      var x := order[0];
      var rest := order[1..];
      assert forall y :: y in rest <==> y in items - {x} by {
        forall y
          ensures y in rest <==> y in items - {x}
        {
          if y in rest {
            var j :| 0 <= j < |rest| && rest[j] == y;
            assert order[j + 1] == y;
          }
          if y in items - {x} {
            assert y in order;
            var j :| 0 <= j < |order| && order[j] == y;
            assert j != 0;
            assert rest[j - 1] == y;
          }
        }
      }
      assert Distinct(rest) by {
        forall i, j | 0 <= i < j < |rest|
          ensures rest[i] != rest[j]
        {
          assert order[i + 1] != order[j + 1];
        }
      }
      ListingLength(rest, items - {x});
    } else {
      assert forall y :: y !in items by {
        forall y
          ensures y !in items
        {
          assert y !in order;
        }
      }
      assert items == {};
    }
  }

  /** One pass over a set in some order the caller does not choose (Java's
      `HashMap.values()` iteration order is unspecified): every element is
      visited exactly once. */
  method IterationOrder<T(==,!new)>(items: set<T>) returns (order: seq<T>)
    ensures IsListing(order, items)
  {
    order := [];
    var rest := items;
    while rest != {}
      invariant rest <= items
      invariant Distinct(order)
      invariant forall x :: x in order <==> x in items && x !in rest
      decreases rest
    {
      var x :| x in rest;
      order := order + [x];
      rest := rest - {x};
    }
  }
}
