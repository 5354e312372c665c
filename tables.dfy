/**
 * Rows of a table keyed by an INTEGER column, kept in the order SQLite stores
 * them (ascending rowid). `Without` is `DELETE FROM t WHERE col = k`,
 * `FindBy` is the look-up a join does on a primary key.
 */
module Tables {
  import opened Wrappers

  /** The values the column `key` takes in `s`. */
  function Keys<T(==)>(s: seq<T>, key: T -> int): set<int> {
    set x | x in s :: key(x)
  }

  /** Keys strictly ascend along the table, so no key occurs twice. */
  predicate Ascending<T>(s: seq<T>, key: T -> int) {
    forall i, j :: 0 <= i < j < |s| ==> key(s[i]) < key(s[j])
  }

  lemma KeyOf<T>(s: seq<T>, key: T -> int, x: T)
    requires x in s
    ensures key(x) in Keys(s, key)
  {
  }

  /** Every key lies in `1..last`: AUTOINCREMENT hands out positive ids and
      `last` is the largest one handed out so far. */
  predicate KeysUpTo<T(==)>(s: seq<T>, key: T -> int, last: int) {
    forall x :: x in s ==> 1 <= key(x) <= last
  }

  /** The rows of `s` whose column `key` differs from `k`, in their order. */
  function Without<T(==)>(s: seq<T>, key: T -> int, k: int): (r: seq<T>)
    ensures |r| <= |s|
    ensures forall x :: x in r ==> x in s && key(x) != k
    ensures forall x :: x in s && key(x) != k ==> x in r
  {
    if s == [] then []
    else if key(s[0]) == k then Without(s[1..], key, k)
    else [s[0]] + Without(s[1..], key, k)
  }

  /** Deleting rows, by whatever column, keeps the table in id order. */
  lemma {:induction false} WithoutAscending<T>(s: seq<T>, key: T -> int, k: int, order: T -> int)
    requires Ascending(s, order)
    ensures Ascending(Without(s, key, k), order)
  {
    if s != [] {
      WithoutAscending(s[1..], key, k, order);
      var t := Without(s[1..], key, k);
      forall j | 0 <= j < |t| ensures order(s[0]) < order(t[j]) {
        assert t[j] in s[1..];
      }
    }
  }

  /** Deleting a key nobody has changes nothing. */
  lemma {:induction false} WithoutAbsent<T>(s: seq<T>, key: T -> int, k: int)
    requires k !in Keys(s, key)
    ensures Without(s, key, k) == s
  {
    if s != [] {
      assert s[0] in s;
      assert Keys(s[1..], key) <= Keys(s, key) by {
        forall y | y in Keys(s[1..], key) ensures y in Keys(s, key) {
          var x :| x in s[1..] && key(x) == y;
          assert x in s;
        }
      }
      WithoutAbsent(s[1..], key, k);
    }
  }

  /** With unique keys, deleting a present key removes exactly one row. */
  lemma {:induction false} WithoutPresent<T>(s: seq<T>, key: T -> int, k: int)
    requires Ascending(s, key) && k in Keys(s, key)
    ensures |Without(s, key, k)| == |s| - 1
  {
    assert s != [];
    if key(s[0]) == k {
      assert k !in Keys(s[1..], key) by {
        forall j | 0 <= j < |s[1..]| ensures key(s[1..][j]) != k {
          assert s[1..][j] == s[j + 1];
        }
      }
      WithoutAbsent(s[1..], key, k);
    } else {
      var x :| x in s && key(x) == k;
      assert x in s[1..] by { assert x != s[0]; }
      WithoutPresent(s[1..], key, k);
    }
  }

  lemma KeysWithout<T>(s: seq<T>, key: T -> int, k: int)
    ensures Keys(Without(s, key, k), key) == Keys(s, key) - {k}
  {
    var r := Without(s, key, k);
    forall y ensures y in Keys(r, key) <==> y in Keys(s, key) - {k} {
      if y in Keys(s, key) - {k} {
        var x :| x in s && key(x) == y;
        assert x in r;
      }
    }
  }

  lemma KeysAppend<T>(s: seq<T>, key: T -> int, x: T)
    ensures Keys(s + [x], key) == Keys(s, key) + {key(x)}
  {
    var r := s + [x];
    forall y ensures y in Keys(r, key) <==> y in Keys(s, key) + {key(x)} {
      if y in Keys(s, key) {
        var z :| z in s && key(z) == y;
        assert z in r;
      }
      assert x in r;
    }
  }

  /** The row of `s` whose column `key` is `k`, if there is one. */
  function FindBy<T(==)>(s: seq<T>, key: T -> int, k: int): (r: Option<T>)
    ensures r.Some? <==> k in Keys(s, key)
    ensures r.Some? ==> r.value in s && key(r.value) == k
  {
    if s == [] then None
    else if key(s[0]) == k then Some(s[0])
    else
      var r := FindBy(s[1..], key, k);
      assert k in Keys(s, key) ==> k in Keys(s[1..], key) by {
        if k in Keys(s, key) {
          var x :| x in s && key(x) == k;
          assert x in s[1..] by { assert x != s[0]; }
        }
      }
      r
  }

  /** With unique keys the look-up finds the one row with that key. */
  lemma FindUnique<T>(s: seq<T>, key: T -> int, x: T)
    requires Ascending(s, key) && x in s
    ensures FindBy(s, key, key(x)) == Some(x)
  {
    var y := FindBy(s, key, key(x)).value;
    var i :| 0 <= i < |s| && s[i] == x;
    var j :| 0 <= j < |s| && s[j] == y;
  }
}
