/**
 * The in-memory reading of a database table: a sequence of rows in the
 * table's listing order, each with an integer primary key.
 */
module Tables {
  import opened Common

  predicate UniqueKeys<T>(rows: seq<T>, key: T -> int) {
    forall i, j :: 0 <= i < j < |rows| ==> key(rows[i]) != key(rows[j])
  }

  predicate HasKey<T>(rows: seq<T>, key: T -> int, id: int) {
    exists i :: 0 <= i < |rows| && key(rows[i]) == id
  }

  /** The first row whose key is `id`, as a `where` on the key followed by
      `first` gives it. */
  function Find<T>(rows: seq<T>, key: T -> int, id: int): (r: Option<T>)
    ensures r.Some? <==> HasKey(rows, key, id)
    ensures r.Some? ==> r.value in rows && key(r.value) == id
  {
    if rows == [] then None
    else if key(rows[0]) == id then Some(rows[0])
    else
      var r := Find(rows[1..], key, id);
      assert HasKey(rows[1..], key, id) ==> HasKey(rows, key, id) by {
        if HasKey(rows[1..], key, id) {
          var i :| 0 <= i < |rows[1..]| && key(rows[1..][i]) == id;
          assert key(rows[i + 1]) == id;
        }
      }
      assert HasKey(rows, key, id) ==> HasKey(rows[1..], key, id) by {
        if HasKey(rows, key, id) {
          var i :| 0 <= i < |rows| && key(rows[i]) == id;
          assert i > 0 && key(rows[1..][i - 1]) == id;
        }
      }
      r
  }

  /** With unique keys, the row found is the one row carrying the key. */
  lemma {:induction false} FindUnique<T>(rows: seq<T>, key: T -> int, k: nat)
    requires UniqueKeys(rows, key) && k < |rows|
    ensures Find(rows, key, key(rows[k])) == Some(rows[k])
  {
    if k > 0 {
      assert key(rows[0]) != key(rows[k]);
      FindUnique(rows[1..], key, k - 1);
    }
  }

  /** The rows satisfying `p`, in order (a `where` clause). */
  function Filter<T>(rows: seq<T>, p: T -> bool): (r: seq<T>)
    ensures |r| <= |rows|
    ensures forall i :: 0 <= i < |r| ==> r[i] in rows && p(r[i])
    ensures forall i :: 0 <= i < |rows| && p(rows[i]) ==> rows[i] in r
    ensures (forall i :: 0 <= i < |rows| ==> p(rows[i])) ==> r == rows
  {
    if rows == [] then []
    else (if p(rows[0]) then [rows[0]] else []) + Filter(rows[1..], p)
  }

  lemma {:induction false} FilterAppend<T>(a: seq<T>, b: seq<T>, p: T -> bool)
    ensures Filter(a + b, p) == Filter(a, p) + Filter(b, p)
  {
    if a == [] {
      assert a + b == b;
    } else {
      assert (a + b)[0] == a[0] && (a + b)[1..] == a[1..] + b;
      FilterAppend(a[1..], b, p);
      var head := if p(a[0]) then [a[0]] else [];
      assert Filter(a + b, p) == head + Filter(a[1..] + b, p);
      assert head + (Filter(a[1..], p) + Filter(b, p)) == (head + Filter(a[1..], p)) + Filter(b, p);
    }
  }

  /** Filtering keeps keys unique. */
  lemma {:induction false} FilterUnique<T>(rows: seq<T>, key: T -> int, p: T -> bool)
    requires UniqueKeys(rows, key)
    ensures UniqueKeys(Filter(rows, p), key)
  {
    if rows != [] {
      FilterUnique(rows[1..], key, p);
      var rest := Filter(rows[1..], p);
      forall j | 0 <= j < |rest| ensures key(rest[j]) != key(rows[0]) {
        assert rest[j] in rows[1..];
        var i :| 0 <= i < |rows[1..]| && rows[1..][i] == rest[j];
        assert rows[i + 1] == rest[j];
      }
    }
  }

  /** The table after `session.delete` of the row with key `id`. */
  function RemoveKey<T>(rows: seq<T>, key: T -> int, id: int): (r: seq<T>)
    ensures forall i :: 0 <= i < |r| ==> r[i] in rows && key(r[i]) != id
    ensures forall i :: 0 <= i < |rows| && key(rows[i]) != id ==> rows[i] in r
    ensures !HasKey(rows, key, id) ==> r == rows
    ensures HasKey(rows, key, id) ==> |r| < |rows|
    ensures !HasKey(r, key, id)
  {
    if rows == [] then []
    else
      var r := (if key(rows[0]) == id then [] else [rows[0]]) + RemoveKey(rows[1..], key, id);
      assert HasKey(rows, key, id) && key(rows[0]) != id ==> HasKey(rows[1..], key, id) by {
        if HasKey(rows, key, id) && key(rows[0]) != id {
          var i :| 0 <= i < |rows| && key(rows[i]) == id;
          assert i > 0 && key(rows[1..][i - 1]) == id;
        }
      }
      assert !HasKey(rows, key, id) ==> !HasKey(rows[1..], key, id) by {
        if HasKey(rows[1..], key, id) {
          var i :| 0 <= i < |rows[1..]| && key(rows[1..][i]) == id;
          assert key(rows[i + 1]) == id;
        }
      }
      r
  }

  lemma {:induction false} RemoveKeyUnique<T>(rows: seq<T>, key: T -> int, id: int)
    requires UniqueKeys(rows, key)
    ensures UniqueKeys(RemoveKey(rows, key, id), key)
  {
    if rows != [] {
      RemoveKeyUnique(rows[1..], key, id);
      var rest := RemoveKey(rows[1..], key, id);
      forall j | 0 <= j < |rest| ensures key(rest[j]) != key(rows[0]) {
        assert rest[j] in rows[1..];
        var i :| 0 <= i < |rows[1..]| && rows[1..][i] == rest[j];
        assert rows[i + 1] == rest[j];
      }
    }
  }
}
