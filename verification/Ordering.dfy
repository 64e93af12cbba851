/** `ORDER BY key ASC` over a set of rows: any order the database may pick. */
module Ordering {

  predicate SortedBy<T(==)>(xs: seq<T>, key: map<T, int>)
    requires forall x :: x in xs ==> x in key
  {
    forall i, j :: 0 <= i < j < |xs| ==> key[xs[i]] <= key[xs[j]]
  }

  predicate Distinct<T(==)>(xs: seq<T>) {
    forall i, j :: 0 <= i < j < |xs| ==> xs[i] != xs[j]
  }

  /** `xs` lists exactly `rows`, each once, by key. */
  predicate Orders<T(==)>(xs: seq<T>, rows: set<T>, key: map<T, int>) {
    && rows <= key.Keys
    && (forall x :: x in xs ==> x in rows)
    && (forall x :: x in rows ==> x in xs)
    && Distinct(xs)
    && SortedBy(xs, key)
  }

  method OrderBy<T(==)>(rows: set<T>, key: map<T, int>) returns (xs: seq<T>)
    requires rows <= key.Keys
    ensures Orders(xs, rows, key)
  {
    xs := [];
    var todo := rows;
    while todo != {}
      invariant todo <= rows
      invariant Orders(xs, rows - todo, key)
      decreases |todo|
    {
      var x :| x in todo;
      var k := 0;
      while k < |xs| && key[xs[k]] <= key[x]
        invariant k <= |xs|
        invariant forall i :: 0 <= i < k ==> key[xs[i]] <= key[x]
      {
        k := k + 1;
      }
      Inserted(xs, rows - todo, key, x, k);
      xs := xs[..k] + [x] + xs[k..];
      assert rows - (todo - {x}) == rows - todo + {x};
      todo := todo - {x};
    }
    assert rows - todo == rows;
  }

  lemma Inserted<T>(xs: seq<T>, rows: set<T>, key: map<T, int>, x: T, k: nat)
    requires Orders(xs, rows, key) && x !in rows && x in key && k <= |xs|
    requires forall i :: 0 <= i < k ==> key[xs[i]] <= key[x]
    requires k < |xs| ==> key[x] <= key[xs[k]]
    ensures Orders(xs[..k] + [x] + xs[k..], rows + {x}, key)
  {
    var ys := xs[..k] + [x] + xs[k..];
    forall i | 0 <= i < |ys| && i != k ensures ys[i] == xs[if i < k then i else i - 1] && ys[i] in rows {
      assert xs[if i < k then i else i - 1] in xs;
    }
    InsertedLists(xs, rows, x, k);
    forall i, j | 0 <= i < j < |ys| ensures ys[i] != ys[j] && key[ys[i]] <= key[ys[j]] {
      if i != k && j != k {
        assert key[xs[if i < k then i else i - 1]] <= key[xs[if j < k then j else j - 1]];
      } else if j != k {
        assert key[xs[k]] <= key[xs[j - 1]];
      }
    }
  }

  lemma InsertedLists<T>(xs: seq<T>, rows: set<T>, x: T, k: nat)
    requires k <= |xs| && forall y :: y in rows ==> y in xs
    ensures forall y :: y in rows + {x} ==> y in xs[..k] + [x] + xs[k..]
  {
    var ys := xs[..k] + [x] + xs[k..];
    assert ys[k] == x;
    forall y | y in rows ensures y in ys {
      var i :| 0 <= i < |xs| && xs[i] == y;
      assert ys[if i < k then i else i + 1] == y;
    }
  }
}
