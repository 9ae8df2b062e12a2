/**
 * The option lists both servers build from the car dataset: Python's string
 * order, `sorted(series.unique().tolist())`, and the loop that maps every
 * make to the sorted distinct models listed for it (app.py:32-34 and
 * ml/CAR_PRICE_PREDICTION_LGBM/app.py:59-63).
 */
module Catalog {

  // ---------------------------------------------------------------------
  // Python's `<` on `str`
  // ---------------------------------------------------------------------

  /** `a < b` on Python strings: code point by code point, a proper prefix first. */
  predicate LexLess(a: string, b: string)
  {
    if a == [] then b != []
    else if b == [] then false
    else if a[0] != b[0] then a[0] < b[0]
    else LexLess(a[1..], b[1..])
  }

  lemma {:induction false} LexLessIrreflexive(a: string)
    ensures !LexLess(a, a)
  {
    if a != [] {
      LexLessIrreflexive(a[1..]);
    }
  }

  lemma {:induction false} LexLessTransitive(a: string, b: string, c: string)
    requires LexLess(a, b) && LexLess(b, c)
    ensures LexLess(a, c)
  {
    if a != [] && b != [] && c != [] && a[0] == b[0] && b[0] == c[0] {
      LexLessTransitive(a[1..], b[1..], c[1..]);
    }
  }

  /** Two different strings are ordered one way or the other. */
  lemma {:induction false} LexLessTotal(a: string, b: string)
    requires a != b
    ensures LexLess(a, b) || LexLess(b, a)
  {
    if a != [] && b != [] && a[0] == b[0] {
      assert a == [a[0]] + a[1..] && b == [b[0]] + b[1..];
      LexLessTotal(a[1..], b[1..]);
    }
  }

  /** `LexLess` never holds both ways. */
  lemma LexLessAsymmetric(a: string, b: string)
    requires LexLess(a, b)
    ensures !LexLess(b, a)
  {
    if LexLess(b, a) {
      LexLessTransitive(a, b, a);
      LexLessIrreflexive(a);
    }
  }

  predicate StrictlySorted(s: seq<string>)
  {
    forall i, j :: 0 <= i < j < |s| ==> LexLess(s[i], s[j])
  }

  predicate Distinct<T(==)>(s: seq<T>)
  {
    forall i, j :: 0 <= i < j < |s| ==> s[i] != s[j]
  }

  lemma StrictlySortedDistinct(s: seq<string>)
    requires StrictlySorted(s)
    ensures Distinct(s)
  {
    forall i, j | 0 <= i < j < |s|
      ensures s[i] != s[j]
    {
      LexLessIrreflexive(s[i]);
    }
  }

  // ---------------------------------------------------------------------
  // unique() and sorted()
  // ---------------------------------------------------------------------

  /** `Series.unique()`: each value once, in order of first appearance. */
  function Unique(xs: seq<string>): (r: seq<string>)
    ensures Distinct(r)
    ensures forall x :: x in r <==> x in xs
  {
    if xs == [] then []
    else
      var u := Unique(xs[..|xs| - 1]);
      var last := xs[|xs| - 1];
      assert forall x :: x in xs <==> x in xs[..|xs| - 1] || x == last by {
        assert xs == xs[..|xs| - 1] + [last];
      }
      if last in u then u else u + [last]
  }

  /** Insert `x` before the first element that is not less than it. */
  function Insert(x: string, s: seq<string>): seq<string>
  {
    if s == [] || !LexLess(s[0], x) then [x] + s else [s[0]] + Insert(x, s[1..])
  }

  /** `sorted(xs)`, as an insertion sort. */
  function Sort(xs: seq<string>): seq<string>
  {
    if xs == [] then [] else Insert(xs[0], Sort(xs[1..]))
  }

  lemma {:induction false} InsertSorted(x: string, s: seq<string>)
    requires StrictlySorted(s) && x !in s
    ensures StrictlySorted(Insert(x, s))
    ensures forall y :: y in Insert(x, s) <==> y == x || y in s
    ensures |Insert(x, s)| == |s| + 1
  {
    if s == [] {
    } else if !LexLess(s[0], x) {
      LexLessTotal(x, s[0]);
      var r := [x] + s;
      forall i, j | 0 <= i < j < |r|
        ensures LexLess(r[i], r[j])
      {
        if i == 0 && j > 1 {
          LexLessTransitive(x, s[0], s[j - 1]);
        }
      }
    } else {
      var t := s[1..];
      assert StrictlySorted(t) by {
        forall i, j | 0 <= i < j < |t|
          ensures LexLess(t[i], t[j])
        {
          assert t[i] == s[i + 1] && t[j] == s[j + 1];
        }
      }
      assert forall y :: y in s <==> y == s[0] || y in t by {
        assert s == [s[0]] + t;
      }
      InsertSorted(x, t);
      var r := [s[0]] + Insert(x, t);
      forall i, j | 0 <= i < j < |r|
        ensures LexLess(r[i], r[j])
      {
        if i == 0 {
          var y := r[j];
          assert y in Insert(x, t);
          if y != x {
            var k :| 0 <= k < |t| && t[k] == y;
            assert s[k + 1] == y;
          }
        } else {
          assert r[i] == Insert(x, t)[i - 1] && r[j] == Insert(x, t)[j - 1];
        }
      }
    }
  }

  /** Sorting distinct strings gives them in strictly increasing order. */
  lemma {:induction false} SortDistinct(xs: seq<string>)
    requires Distinct(xs)
    ensures StrictlySorted(Sort(xs))
    ensures forall y :: y in Sort(xs) <==> y in xs
  {
    if xs != [] {
      var t := xs[1..];
      assert Distinct(t) by {
        forall i, j | 0 <= i < j < |t|
          ensures t[i] != t[j]
        {
          assert t[i] == xs[i + 1] && t[j] == xs[j + 1];
        }
      }
      assert forall y :: y in xs <==> y == xs[0] || y in t by {
        assert xs == [xs[0]] + t;
      }
      SortDistinct(t);
      assert xs[0] !in t by {
        forall k | 0 <= k < |t|
          ensures t[k] != xs[0]
        {
          assert t[k] == xs[k + 1];
        }
      }
      InsertSorted(xs[0], Sort(t));
    }
  }

  /**
   * `sorted(xs.unique().tolist())`: the distinct values in increasing order.
   * It lists exactly the values of `xs`, each once.
   */
  function SortedUnique(xs: seq<string>): (r: seq<string>)
    ensures StrictlySorted(r)
    ensures forall y :: y in r <==> y in xs
  {
    SortDistinct(Unique(xs));
    Sort(Unique(xs))
  }

  /** Two strictly sorted lists of the same values are the same list. */
  lemma {:induction false} StrictlySortedUnique(a: seq<string>, b: seq<string>)
    requires StrictlySorted(a) && StrictlySorted(b)
    requires forall y :: y in a <==> y in b
    ensures a == b
  {
    assert a != [] <==> b != [] by {
      if a != [] {
        assert a[0] in b;
      }
      if b != [] {
        assert b[0] in a;
      }
    }
    if a != [] {
      assert a[0] == b[0] by {
        assert a[0] in a && b[0] in b;
        var i :| 0 <= i < |b| && b[i] == a[0];
        var j :| 0 <= j < |a| && a[j] == b[0];
        if i > 0 && j > 0 {
          LexLessAsymmetric(b[0], b[i]);
          assert false;
        }
      }
      var a', b' := a[1..], b[1..];
      forall y
        ensures y in a' <==> y in b'
      {
        if y in a' {
          var i :| 0 <= i < |a'| && a'[i] == y;
          assert LexLess(a[0], y) by { assert a[i + 1] == y; }
          LexLessIrreflexive(y);
          assert y in b;
          var k :| 0 <= k < |b| && b[k] == y;
          assert k != 0;
          assert b'[k - 1] == y;
        }
        if y in b' {
          var i :| 0 <= i < |b'| && b'[i] == y;
          assert LexLess(b[0], y) by { assert b[i + 1] == y; }
          LexLessIrreflexive(y);
          assert y in a;
          var k :| 0 <= k < |a| && a[k] == y;
          assert k != 0;
          assert a'[k - 1] == y;
        }
      }
      assert StrictlySorted(a') by {
        forall i, j | 0 <= i < j < |a'|
          ensures LexLess(a'[i], a'[j])
        {
          assert a'[i] == a[i + 1] && a'[j] == a[j + 1];
        }
      }
      assert StrictlySorted(b') by {
        forall i, j | 0 <= i < j < |b'|
          ensures LexLess(b'[i], b'[j])
        {
          assert b'[i] == b[i + 1] && b'[j] == b[j + 1];
        }
      }
      StrictlySortedUnique(a', b');
      assert a == [a[0]] + a' && b == [b[0]] + b';
    }
  }

  /** The order of the data does not matter: any list of the same values gives the same answer. */
  lemma SortedUniqueCanonical(xs: seq<string>, ys: seq<string>)
    requires forall y :: y in xs <==> y in ys
    ensures SortedUnique(xs) == SortedUnique(ys)
  {
    StrictlySortedUnique(SortedUnique(xs), SortedUnique(ys));
  }

  // ---------------------------------------------------------------------
  // manufacturer_models
  // ---------------------------------------------------------------------

  /** A dataset row, reduced to the two columns the grouping reads. */
  datatype Listing = Listing(make: string, model: string)

  function Makes(rows: seq<Listing>): (r: seq<string>)
    ensures forall m :: m in r <==> exists l :: l in rows && l.make == m
  {
    if rows == [] then []
    else
      var r := Makes(rows[..|rows| - 1]);
      assert forall l :: l in rows <==> l in rows[..|rows| - 1] || l == rows[|rows| - 1] by {
        assert rows == rows[..|rows| - 1] + [rows[|rows| - 1]];
      }
      r + [rows[|rows| - 1].make]
  }

  /** `df[df['Make'] == m]['Model']`: the models of the rows with make `m`, in row order. */
  function ModelsOf(rows: seq<Listing>, m: string): (r: seq<string>)
    ensures forall x :: x in r <==> Listing(m, x) in rows
  {
    if rows == [] then []
    else
      var last := rows[|rows| - 1];
      var r := ModelsOf(rows[..|rows| - 1], m);
      assert forall l :: l in rows <==> l in rows[..|rows| - 1] || l == last by {
        assert rows == rows[..|rows| - 1] + [last];
      }
      if last.make == m then r + [last.model] else r
  }

  /**
   * The `for` loop over the distinct makes: each make is mapped to
   * `sorted(unique(models of that make))`. The keys are exactly the makes
   * of the dataset, each list is strictly sorted, and a model is listed
   * under a make exactly when some row pairs them.
   */
  method GroupModels(rows: seq<Listing>) returns (mm: map<string, seq<string>>)
    ensures forall m :: m in mm <==> exists l :: l in rows && l.make == m
    ensures forall m :: m in mm ==> mm[m] == SortedUnique(ModelsOf(rows, m))
    ensures forall m :: m in mm ==> StrictlySorted(mm[m])
    ensures forall m, x :: m in mm ==> (x in mm[m] <==> Listing(m, x) in rows)
  {
    var makes := Unique(Makes(rows));
    mm := map[];
    for i := 0 to |makes|
      invariant forall m :: m in mm <==> m in makes[..i]
      invariant forall m :: m in mm ==> mm[m] == SortedUnique(ModelsOf(rows, m))
    {
      var manufacturer := makes[i];
      assert makes[..i + 1] == makes[..i] + [manufacturer];
      mm := mm[manufacturer := SortedUnique(ModelsOf(rows, manufacturer))];
    }
    assert makes[..|makes|] == makes;
  }

}
