/** Datatypes shared by every module of the model. */
module Common {

  /** A nullable column, a missing map entry or a nil pointer. */
  datatype Option<+T> = None | Some(value: T)

  /** A value, or the error the original returns instead of it. */
  datatype Result<+T, +E> = Ok(value: T) | Err(error: E)

  /** A point on the non-decreasing clock, in seconds after Go's zero time. */
  type Instant = nat

  /** The items that satisfy a test, in their order. */
  function Filter<T>(items: seq<T>, keep: T -> bool): seq<T> {
    if items == [] then []
    else
      var last := |items| - 1;
      Filter(items[..last], keep) + if keep(items[last]) then [items[last]] else []
  }

  lemma FilterOne<T>(items: seq<T>, item: T, keep: T -> bool)
    ensures Filter(items + [item], keep) == Filter(items, keep) + if keep(item) then [item] else []
  {
    assert (items + [item])[..|items|] == items;
  }

  lemma {:induction false} FilterNone<T>(items: seq<T>, more: seq<T>, keep: T -> bool)
    requires forall item :: item in more ==> !keep(item)
    ensures Filter(items + more, keep) == Filter(items, keep)
  {
    if more == [] {
      assert items + more == items;
    } else {
      var last := |more| - 1;
      assert items + more == (items + more[..last]) + [more[last]];
      FilterOne(items + more[..last], more[last], keep);
      FilterNone(items, more[..last], keep);
    }
  }
}
