/** The part of Django's query API that the shop relies on, over tables held as
    sequences of rows in primary-key order: `objects.filter`, `objects.get`, and
    the exceptions a query or an insert raises. */
module Orm {

  datatype Option<T> = None | Some(value: T)

  /** The exceptions the shop's views can raise from the database layer or from
      the standard library. */
  datatype Error =
    | DoesNotExist            // `objects.get` matched no row
    | MultipleObjectsReturned // `objects.get` matched several rows
    | IntegrityError          // an insert broke a unique constraint
    | ValueError              // `random.randint` on an empty range, a file field without a file

  datatype Result<T> = Ok(value: T) | Err(error: Error)

  /** `objects.filter(...)`: the rows that satisfy `keep`, in table order, each as
      often as it occurs in the table. */
  function Filter<T(==,!new)>(rows: seq<T>, keep: T -> bool): (r: seq<T>)
    ensures |r| <= |rows|
    ensures forall x :: x in r <==> x in rows && keep(x)
    ensures r != [] ==> keep(r[0])
  {
    if rows == [] then []
    else
      assert rows == [rows[0]] + rows[1..];
      if keep(rows[0]) then [rows[0]] + Filter(rows[1..], keep) else Filter(rows[1..], keep)
  }

  /** A filter keeps every row that satisfies `keep` as often as the table
      holds it, and no other row. */
  lemma {:induction false} FilterCounts<T(!new)>(rows: seq<T>, keep: T -> bool)
    ensures forall x :: multiset(Filter(rows, keep))[x] == if keep(x) then multiset(rows)[x] else 0
  {
    if rows != [] {
      assert rows == [rows[0]] + rows[1..];
      FilterCounts(rows[1..], keep);
    }
  }

  /** Filtering a concatenation filters each part. */
  lemma {:induction false} FilterAppend<T(!new)>(a: seq<T>, b: seq<T>, keep: T -> bool)
    ensures Filter(a + b, keep) == Filter(a, keep) + Filter(b, keep)
  {
    if a == [] {
      assert a + b == b;
    } else {
      assert (a + b)[0] == a[0];
      assert (a + b)[1..] == a[1..] + b;
      FilterAppend(a[1..], b, keep);
    }
  }

  /** At most one row of the table satisfies `matches` (a unique constraint). */
  predicate AtMostOne<T>(rows: seq<T>, matches: T -> bool)
  {
    forall i, j :: 0 <= i < j < |rows| && matches(rows[i]) ==> !matches(rows[j])
  }

  /** `objects.get(...)`: the single row that satisfies `matches`; no row raises
      DoesNotExist and several raise MultipleObjectsReturned. */
  function Get<T(==,!new)>(rows: seq<T>, matches: T -> bool): (r: Result<T>)
    ensures r.Ok? <==> |Filter(rows, matches)| == 1
    ensures r.Ok? ==> r.value in rows && matches(r.value)
    ensures r == Err(DoesNotExist) <==> forall x :: x in rows ==> !matches(x)
    ensures r.Err? ==> r.error == DoesNotExist || r.error == MultipleObjectsReturned
  {
    var found := Filter(rows, matches);
    if |found| == 0 then Err(DoesNotExist)
    else
      assert found[0] in found;
      if |found| == 1 then Ok(found[0]) else Err(MultipleObjectsReturned)
  }

  /** Under a unique constraint, `get` returns the one matching row. */
  lemma {:induction false} GetUnique<T(!new)>(rows: seq<T>, matches: T -> bool, x: T)
    requires x in rows && matches(x)
    requires AtMostOne(rows, matches)
    ensures Get(rows, matches) == Ok(x)
  {
    FilterSingle(rows, matches, x);
  }

  lemma {:induction false} FilterSingle<T(!new)>(rows: seq<T>, matches: T -> bool, x: T)
    requires x in rows && matches(x)
    requires AtMostOne(rows, matches)
    ensures Filter(rows, matches) == [x]
  {
    assert rows == [rows[0]] + rows[1..];
    if matches(rows[0]) {
      assert rows[0] == x by {
        var k :| 0 <= k < |rows| && rows[k] == x;
        if k > 0 { assert !matches(rows[k]); }
      }
      forall y | y in rows[1..] ensures !matches(y) {
        var k :| 0 <= k < |rows[1..]| && rows[1..][k] == y;
        assert rows[k + 1] == y;
      }
    } else {
      assert x in rows[1..] by {
        var k :| 0 <= k < |rows| && rows[k] == x;
        assert k != 0;
        assert rows[1..][k - 1] == x;
      }
      assert AtMostOne(rows[1..], matches) by {
        forall i, j | 0 <= i < j < |rows[1..]| && matches(rows[1..][i])
          ensures !matches(rows[1..][j])
        {
          assert rows[1..][i] == rows[i + 1] && rows[1..][j] == rows[j + 1];
        }
      }
      FilterSingle(rows[1..], matches, x);
    }
  }
}
