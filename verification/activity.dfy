/**
 * The activity feed cursor (`ActivityView.get_queryset` in
 * src/sa_api/views.py): the activity ids ordered most recent first, an
 * optional strict lower bound `after`, an optional inclusive upper bound
 * `before`, and an optional `limit`.
 *
 * The activity table is the sequence of its ids in storage order; ids are
 * primary keys, so a table that Django can hold has distinct ids. Both
 * bounds are tested for truthiness, so a bound of 0 filters nothing;
 * `limit` is tested against None, so a limit of 0 selects nothing.
 */
module ActivityFeed {
  import opened Wrappers

  /** `if earliest_id:` / `if latest_id:` — None and 0 are both "no bound". */
  predicate IsSet(bound: Option<int>)
  {
    bound.Some? && bound.value != 0
  }

  predicate Descending(s: seq<int>)
  {
    forall i, j :: 0 <= i < j < |s| ==> s[i] >= s[j]
  }

  predicate StrictlyDescending(s: seq<int>)
  {
    forall i, j :: 0 <= i < j < |s| ==> s[i] > s[j]
  }

  predicate Distinct(s: seq<int>)
  {
    forall i, j :: 0 <= i < j < |s| ==> s[i] != s[j]
  }

  /** Putting `x` in front of a sequence whose elements are all below it keeps it (strictly) descending. */
  lemma ConsOrdered(x: int, t: seq<int>)
    ensures (forall y :: y in t ==> x >= y) && Descending(t) ==> Descending([x] + t)
    ensures (forall y :: y in t ==> x > y) && StrictlyDescending(t) ==> StrictlyDescending([x] + t)
  {
    forall i, j | 0 <= i < j < |[x] + t|
      ensures ([x] + t)[j] == t[j - 1] && ([x] + t)[j] in t
      ensures i > 0 ==> ([x] + t)[i] == t[i - 1]
    {
    }
  }

  /** The first element of a descending sequence bounds the rest. */
  lemma HeadBounds(s: seq<int>)
    requires s != []
    ensures Descending(s) ==> Descending(s[1..]) && forall y :: y in s[1..] ==> s[0] >= y
    ensures StrictlyDescending(s) ==> StrictlyDescending(s[1..]) && forall y :: y in s[1..] ==> s[0] > y
  {
    forall y | y in s[1..]
      ensures exists k :: 1 <= k < |s| && s[k] == y
    {
      var k :| 0 <= k < |s[1..]| && s[1..][k] == y;
      assert s[k + 1] == y;
    }
  }

  /** Inserts `x` before the first element it is not smaller than. */
  function InsertDesc(x: int, s: seq<int>): seq<int>
  {
    if s == [] || x >= s[0] then [x] + s
    else [s[0]] + InsertDesc(x, s[1..])
  }

  /** `order_by('-id')`: the ids, largest first. */
  function OrderByIdDesc(ids: seq<int>): seq<int>
  {
    if ids == [] then [] else InsertDesc(ids[0], OrderByIdDesc(ids[1..]))
  }

  /** `filter(id__gt=a)`, keeping order. */
  function KeepAbove(s: seq<int>, a: int): seq<int>
  {
    if s == [] then []
    else if s[0] > a then [s[0]] + KeepAbove(s[1..], a)
    else KeepAbove(s[1..], a)
  }

  /** `filter(id__lte=b)`, keeping order. */
  function KeepAtMost(s: seq<int>, b: int): seq<int>
  {
    if s == [] then []
    else if s[0] <= b then [s[0]] + KeepAtMost(s[1..], b)
    else KeepAtMost(s[1..], b)
  }

  /** Inserting adds exactly `x` to the ids. */
  lemma {:induction false} InsertDescPermutes(x: int, s: seq<int>)
    ensures multiset(InsertDesc(x, s)) == multiset(s) + multiset{x}
    ensures forall y :: y in InsertDesc(x, s) <==> y in s || y == x
  {
    if s != [] && x < s[0] {
      assert s == [s[0]] + s[1..];
      InsertDescPermutes(x, s[1..]);
    }
  }

  /** Inserting into a descending sequence keeps it descending. */
  lemma {:induction false} InsertDescSorts(x: int, s: seq<int>)
    requires Descending(s)
    ensures Descending(InsertDesc(x, s))
    ensures StrictlyDescending(s) && x !in s ==> StrictlyDescending(InsertDesc(x, s))
  {
    if s == [] {
    } else if x >= s[0] {
      HeadBounds(s);
      assert forall y :: y in s ==> y == s[0] || y in s[1..] by {
        assert s == [s[0]] + s[1..];
      }
      ConsOrdered(x, s);
    } else {
      HeadBounds(s);
      var t := InsertDesc(x, s[1..]);
      assert InsertDesc(x, s) == [s[0]] + t;
      InsertDescSorts(x, s[1..]);
      InsertDescPermutes(x, s[1..]);
      assert forall y :: y in t ==> s[0] >= y;
      if StrictlyDescending(s) && x !in s {
        assert x !in s[1..];
        assert forall y :: y in t ==> s[0] > y;
      }
      ConsOrdered(s[0], t);
    }
  }

  /** Ordering by id gives the same ids, largest first, strictly so when the ids are distinct. */
  lemma {:induction false} OrderByIdDescSorts(ids: seq<int>)
    ensures Descending(OrderByIdDesc(ids))
    ensures multiset(OrderByIdDesc(ids)) == multiset(ids)
    ensures forall y :: y in OrderByIdDesc(ids) <==> y in ids
    ensures Distinct(ids) ==> StrictlyDescending(OrderByIdDesc(ids))
  {
    if ids != [] {
      assert ids == [ids[0]] + ids[1..];
      assert Distinct(ids) ==> ids[0] !in ids[1..];
      OrderByIdDescSorts(ids[1..]);
      InsertDescSorts(ids[0], OrderByIdDesc(ids[1..]));
      InsertDescPermutes(ids[0], OrderByIdDesc(ids[1..]));
    }
  }

  /** `KeepAbove` keeps exactly the ids above the bound and their order. */
  lemma {:induction false} KeepAboveFilters(s: seq<int>, a: int)
    ensures forall y :: y in KeepAbove(s, a) <==> y in s && y > a
    ensures Descending(s) ==> Descending(KeepAbove(s, a))
    ensures StrictlyDescending(s) ==> StrictlyDescending(KeepAbove(s, a))
  {
    if s != [] {
      assert s == [s[0]] + s[1..];
      KeepAboveFilters(s[1..], a);
      HeadBounds(s);
      ConsOrdered(s[0], KeepAbove(s[1..], a));
    }
  }

  /** `KeepAtMost` keeps exactly the ids up to the bound and their order. */
  lemma {:induction false} KeepAtMostFilters(s: seq<int>, b: int)
    ensures forall y :: y in KeepAtMost(s, b) <==> y in s && y <= b
    ensures Descending(s) ==> Descending(KeepAtMost(s, b))
    ensures StrictlyDescending(s) ==> StrictlyDescending(KeepAtMost(s, b))
  {
    if s != [] {
      assert s == [s[0]] + s[1..];
      KeepAtMostFilters(s[1..], b);
      HeadBounds(s);
      ConsOrdered(s[0], KeepAtMost(s[1..], b));
    }
  }

  /** `[:n]` on a query set. */
  function Take(s: seq<int>, n: nat): seq<int>
  {
    if n < |s| then s[..n] else s
  }

  /** Django refuses a negative slice bound. */
  datatype QueryError = NegativeLimit

  function GetQueryset(ids: seq<int>, before: Option<int>, after: Option<int>, limit: Option<int>)
    : Result<seq<int>, QueryError>
  {
    var activity := OrderByIdDesc(ids);
    var activity := if IsSet(after) then KeepAbove(activity, after.value) else activity;
    var activity := if IsSet(before) then KeepAtMost(activity, before.value) else activity;
    if limit.None? then Ok(activity)
    else if limit.value < 0 then Err(NegativeLimit)
    else Ok(Take(activity, limit.value))
  }

  /** An id passes the bounds that are set. */
  predicate InBounds(id: int, before: Option<int>, after: Option<int>)
  {
    && (IsSet(after) ==> id > after.value)
    && (IsSet(before) ==> id <= before.value)
  }

  /** What the filters give before the limit applies. */
  lemma {:induction false} FilteredFacts(ids: seq<int>, before: Option<int>, after: Option<int>)
    ensures var full := GetQueryset(ids, before, after, None).value;
      && Descending(full)
      && (Distinct(ids) ==> StrictlyDescending(full))
      && forall id :: id in full <==> id in ids && InBounds(id, before, after)
  {
    var sorted := OrderByIdDesc(ids);
    OrderByIdDescSorts(ids);
    var above := if IsSet(after) then KeepAbove(sorted, after.value) else sorted;
    KeepAboveFilters(sorted, if IsSet(after) then after.value else 0);
    KeepAtMostFilters(above, if IsSet(before) then before.value else 0);
  }

  /** The result is ordered most recent first, strictly so since ids are distinct. */
  lemma QuerysetOrdered(ids: seq<int>, before: Option<int>, after: Option<int>, limit: Option<int>)
    requires GetQueryset(ids, before, after, limit).Ok?
    ensures Descending(GetQueryset(ids, before, after, limit).value)
    ensures Distinct(ids) ==> StrictlyDescending(GetQueryset(ids, before, after, limit).value)
  {
    FilteredFacts(ids, before, after);
  }

  /** Every returned id is an activity id within the bounds that are set. */
  lemma QuerysetWithinBounds(ids: seq<int>, before: Option<int>, after: Option<int>, limit: Option<int>, id: int)
    requires GetQueryset(ids, before, after, limit).Ok?
    requires id in GetQueryset(ids, before, after, limit).value
    ensures id in ids && InBounds(id, before, after)
  {
    var full := GetQueryset(ids, before, after, None).value;
    FilteredFacts(ids, before, after);
    if limit.Some? && limit.value < |full| {
      assert id in full[..limit.value];
    }
  }

  /**
   * Without a limit nothing that matches is left out: a client polling
   * with `after` set to the largest id it has seen gets every newer id.
   */
  lemma QuerysetComplete(ids: seq<int>, before: Option<int>, after: Option<int>)
    ensures GetQueryset(ids, before, after, None).Ok?
    ensures forall id :: id in GetQueryset(ids, before, after, None).value <==> id in ids && InBounds(id, before, after)
  {
    FilteredFacts(ids, before, after);
  }

  /** A bound of 0 is no bound at all. */
  lemma ZeroBoundsIgnored(ids: seq<int>, before: Option<int>, after: Option<int>, limit: Option<int>)
    ensures GetQueryset(ids, Some(0), after, limit) == GetQueryset(ids, None, after, limit)
    ensures GetQueryset(ids, before, Some(0), limit) == GetQueryset(ids, before, None, limit)
  {
  }

  /**
   * A limit keeps the first `limit` ids of the unlimited result, so the
   * most recent ones: every matching id it drops is older than every id it
   * keeps. A limit of 0 gives nothing.
   */
  lemma LimitKeepsMostRecent(ids: seq<int>, before: Option<int>, after: Option<int>, n: int)
    requires n >= 0 && Distinct(ids)
    ensures var full := GetQueryset(ids, before, after, None).value;
      var r := GetQueryset(ids, before, after, Some(n));
      && r == Ok(if n < |full| then full[..n] else full)
      && (n == 0 ==> r.value == [])
      && forall x, y :: x in r.value && y in full && y !in r.value ==> y < x
  {
    var full := GetQueryset(ids, before, after, None).value;
    var r := GetQueryset(ids, before, after, Some(n)).value;
    QuerysetOrdered(ids, before, after, None);
    forall x, y | x in r && y in full && y !in r
      ensures y < x
    {
      var i :| 0 <= i < |r| && r[i] == x;
      var j :| 0 <= j < |full| && full[j] == y;
      assert r == full[..|r|];
      assert full[i] == x;
    }
  }

  /** A negative limit makes Django's slicing raise. */
  lemma NegativeLimitRaises(ids: seq<int>, before: Option<int>, after: Option<int>, n: int)
    requires n < 0
    ensures GetQueryset(ids, before, after, Some(n)) == Err(NegativeLimit)
  {
  }

  lemma SortedFive()
    ensures OrderByIdDesc([3, 1, 5, 2, 4]) == [5, 4, 3, 2, 1]
  {
    assert [3, 1, 5, 2, 4][1..] == [1, 5, 2, 4];
    assert [1, 5, 2, 4][1..] == [5, 2, 4];
    assert [5, 2, 4][1..] == [2, 4];
    assert [2, 4][1..] == [4];
    assert [4][1..] == [];
    assert OrderByIdDesc([4]) == [4];
    assert InsertDesc(2, [4]) == [4] + InsertDesc(2, []);
    assert OrderByIdDesc([2, 4]) == [4, 2];
    assert OrderByIdDesc([5, 2, 4]) == [5, 4, 2];
    assert InsertDesc(1, [5, 4, 2]) == [5] + InsertDesc(1, [4, 2]);
    assert InsertDesc(1, [4, 2]) == [4] + InsertDesc(1, [2]);
    assert InsertDesc(1, [2]) == [2] + InsertDesc(1, []);
    assert OrderByIdDesc([1, 5, 2, 4]) == [5, 4, 2, 1];
    assert InsertDesc(3, [5, 4, 2, 1]) == [5] + InsertDesc(3, [4, 2, 1]);
    assert InsertDesc(3, [4, 2, 1]) == [4] + InsertDesc(3, [2, 1]);
  }

  lemma SortedAscendingThree()
    ensures OrderByIdDesc([3, 4, 5]) == [5, 4, 3]
  {
    assert [3, 4, 5][1..] == [4, 5];
    assert [4, 5][1..] == [5];
    assert [5][1..] == [];
    assert OrderByIdDesc([5]) == [5];
    assert InsertDesc(4, [5]) == [5] + InsertDesc(4, []);
    assert OrderByIdDesc([4, 5]) == [5, 4];
    assert InsertDesc(3, [5, 4]) == [5] + InsertDesc(3, [4]);
  }

  lemma SortedAscendingFour()
    ensures OrderByIdDesc([2, 3, 4, 5]) == [5, 4, 3, 2]
  {
    assert [2, 3, 4, 5][1..] == [3, 4, 5];
    SortedAscendingThree();
    assert [5, 4, 3][1..] == [4, 3] && [4, 3][1..] == [3];
    assert InsertDesc(2, [5, 4, 3]) == [5] + InsertDesc(2, [4, 3]);
    assert InsertDesc(2, [4, 3]) == [4] + InsertDesc(2, [3]);
  }

  lemma SortedAscendingFive()
    ensures OrderByIdDesc([1, 2, 3, 4, 5]) == [5, 4, 3, 2, 1]
  {
    assert [1, 2, 3, 4, 5][1..] == [2, 3, 4, 5];
    SortedAscendingFour();
    assert [5, 4, 3, 2][1..] == [4, 3, 2] && [4, 3, 2][1..] == [3, 2] && [3, 2][1..] == [2];
    assert InsertDesc(1, [5, 4, 3, 2]) == [5] + InsertDesc(1, [4, 3, 2]);
    assert InsertDesc(1, [4, 3, 2]) == [4] + InsertDesc(1, [3, 2]);
    assert InsertDesc(1, [3, 2]) == [3] + InsertDesc(1, [2]);
  }

  /** The `after` filter over the ids 5 down to 1. */
  lemma KeepAboveFive()
    ensures KeepAbove([5, 4, 3, 2, 1], 2) == [5, 4, 3]
    ensures KeepAbove([5, 4, 3, 2, 1], 5) == []
  {
    assert [5, 4, 3, 2, 1][1..] == [4, 3, 2, 1] && [4, 3, 2, 1][1..] == [3, 2, 1];
    assert [3, 2, 1][1..] == [2, 1] && [2, 1][1..] == [1] && [1][1..] == [];
  }

  /** Worked cases over the ids 1 to 5, stored in any order. */
  lemma FeedExamples()
    ensures GetQueryset([3, 1, 5, 2, 4], Some(4), Some(2), None) == Ok([4, 3])
    ensures GetQueryset([3, 1, 5, 2, 4], None, None, Some(2)) == Ok([5, 4])
    ensures GetQueryset([3, 1, 5, 2, 4], None, Some(5), None) == Ok([])
    ensures GetQueryset([3, 1, 5, 2, 4], None, None, None) == Ok([5, 4, 3, 2, 1])
  {
    SortedFive();
    KeepAboveFive();
    assert KeepAtMost([5, 4, 3], 4) == [4, 3] by {
      assert [5, 4, 3][1..] == [4, 3] && [4, 3][1..] == [3] && [3][1..] == [];
    }
    assert [5, 4, 3, 2, 1][..2] == [5, 4];
  }

  /**
   * With a limit, polling by `after` can skip activity: after seeing id 2,
   * a poll with limit 1 returns only 5, and the next poll after 5 returns
   * nothing, so 3 and 4 are never delivered.
   */
  lemma LimitedPollingSkips()
    ensures GetQueryset([1, 2, 3, 4, 5], None, Some(2), Some(1)) == Ok([5])
    ensures GetQueryset([1, 2, 3, 4, 5], None, Some(5), Some(1)) == Ok([])
  {
    SortedAscendingFive();
    KeepAboveFive();
    assert [5, 4, 3][..1] == [5];
  }
}
