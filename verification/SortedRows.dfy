/** Vectors kept strictly ascending by a key and searched by bisection. The staking pallet keeps
    bonds and auto-compound settings this way, the orbiters pallet its table of round authors. */
module SortedRows {
  import opened Sequences
  import opened Xcm

  datatype Row<V> = Row(key: nat, value: V)

  ghost predicate Ascending<V>(rows: seq<Row<V>>) {
    forall i, j :: 0 <= i < j < |rows| ==> rows[i].key < rows[j].key
  }

  // ---------- The vector as a finite map ----------

  function Lookup<V>(rows: seq<Row<V>>, key: nat): Option<V> {
    if rows == [] then None
    else if rows[0].key == key then Some(rows[0].value)
    else Lookup(rows[1..], key)
  }

  /** Sets the value at `key`, in place or at its sorted position. */
  function Put<V>(rows: seq<Row<V>>, key: nat, value: V): seq<Row<V>> {
    if rows == [] || key < rows[0].key then [Row(key, value)] + rows
    else if rows[0].key == key then [Row(key, value)] + rows[1..]
    else [rows[0]] + Put(rows[1..], key, value)
  }

  function Drop<V>(rows: seq<Row<V>>, key: nat): seq<Row<V>> {
    if rows == [] then []
    else if rows[0].key == key then rows[1..]
    else [rows[0]] + Drop(rows[1..], key)
  }

  function Sum(rows: seq<Row<nat>>): nat {
    if rows == [] then 0 else rows[0].value + Sum(rows[1..])
  }

  lemma {:induction false} LookupAt<V>(rows: seq<Row<V>>, i: nat)
    requires Ascending(rows) && i < |rows|
    ensures Lookup(rows, rows[i].key) == Some(rows[i].value)
  {
    if i > 0 {
      LookupAt(rows[1..], i - 1);
    }
  }

  lemma {:induction false} LookupFound<V>(rows: seq<Row<V>>, key: nat) returns (i: nat)
    requires Lookup(rows, key).Some?
    ensures i < |rows| && rows[i] == Row(key, Lookup(rows, key).value)
  {
    if rows[0].key == key {
      i := 0;
    } else {
      i := LookupFound(rows[1..], key);
      i := i + 1;
    }
  }

  lemma {:induction false} LookupBelow<V>(rows: seq<Row<V>>, key: nat)
    requires Ascending(rows) && (rows == [] || key < rows[0].key)
    ensures Lookup(rows, key) == None
  {
    if rows != [] {
      LookupBelow(rows[1..], key);
    }
  }

  lemma {:induction false} PutAscending<V>(rows: seq<Row<V>>, key: nat, value: V)
    requires Ascending(rows)
    ensures Ascending(Put(rows, key, value))
    ensures Put(rows, key, value)[0].key == if rows == [] || key < rows[0].key then key else rows[0].key
  {
    if rows != [] && rows[0].key < key {
      PutAscending(rows[1..], key, value);
      var rest := Put(rows[1..], key, value);
      forall j | 0 <= j < |rest| ensures rows[0].key < rest[j].key {
        if j > 0 { assert rest[0].key < rest[j].key; }
      }
    }
  }

  lemma {:induction false} PutFound<V>(rows: seq<Row<V>>, key: nat, value: V)
    requires Ascending(rows)
    ensures forall k :: Lookup(Put(rows, key, value), k) == if k == key then Some(value) else Lookup(rows, k)
    ensures |Put(rows, key, value)| == |rows| + if Lookup(rows, key).None? then 1 else 0
  {
    if rows == [] || key < rows[0].key {
      LookupBelow(rows, key);
      assert ([Row(key, value)] + rows)[1..] == rows;
    } else if rows[0].key == key {
      assert ([Row(key, value)] + rows[1..])[1..] == rows[1..];
    } else {
      PutFound(rows[1..], key, value);
      var rest := Put(rows[1..], key, value);
      assert ([rows[0]] + rest)[1..] == rest;
    }
  }

  lemma PutLaws<V>(rows: seq<Row<V>>, key: nat, value: V)
    requires Ascending(rows)
    ensures Ascending(Put(rows, key, value))
    ensures Put(rows, key, value)[0].key == if rows == [] || key < rows[0].key then key else rows[0].key
    ensures forall k :: Lookup(Put(rows, key, value), k) == if k == key then Some(value) else Lookup(rows, k)
    ensures |Put(rows, key, value)| == |rows| + if Lookup(rows, key).None? then 1 else 0
  {
    PutAscending(rows, key, value);
    PutFound(rows, key, value);
  }

  lemma {:induction false} DropLaws<V>(rows: seq<Row<V>>, key: nat)
    requires Ascending(rows)
    ensures Ascending(Drop(rows, key))
    ensures forall r :: r in Drop(rows, key) ==> r in rows
    ensures forall k :: Lookup(Drop(rows, key), k) == if k == key then None else Lookup(rows, k)
    ensures |Drop(rows, key)| == |rows| - if Lookup(rows, key).None? then 0 else 1
  {
    if rows == [] {
    } else if rows[0].key == key {
      LookupBelow(rows[1..], key);
    } else {
      DropLaws(rows[1..], key);
      var rest := Drop(rows[1..], key);
      assert ([rows[0]] + rest)[1..] == rest;
      forall j | 0 <= j < |rest| ensures rows[0].key < rest[j].key {
        assert rest[j] in rows[1..];
      }
    }
  }

  /** The vector is a canonical form: equal lookups mean equal vectors. */
  lemma {:induction false} Canonical<V>(a: seq<Row<V>>, b: seq<Row<V>>)
    requires Ascending(a) && Ascending(b)
    requires forall k :: Lookup(a, k) == Lookup(b, k)
    ensures a == b
  {
    if a == [] || b == [] {
      var k := if a != [] then a[0].key else if b != [] then b[0].key else 0;
      var la, lb := Lookup(a, k), Lookup(b, k);
    } else {
      var ka, kb := a[0].key, b[0].key;
      assert Lookup(a, ka) == Lookup(b, ka) && Lookup(a, kb) == Lookup(b, kb);
      if ka < kb { LookupBelow(b, ka); }
      if kb < ka { LookupBelow(a, kb); }
      forall k ensures Lookup(a[1..], k) == Lookup(b[1..], k) {
        if k == ka {
          LookupBelow(a[1..], k);
          LookupBelow(b[1..], k);
        } else {
          assert Lookup(a, k) == Lookup(b, k);
        }
      }
      Canonical(a[1..], b[1..]);
    }
  }

  lemma {:induction false} SumPut(rows: seq<Row<nat>>, key: nat, value: nat)
    requires Ascending(rows)
    ensures Sum(Put(rows, key, value)) == Sum(rows) - Lookup(rows, key).GetOr(0) + value
  {
    if rows == [] || key < rows[0].key {
      LookupBelow(rows, key);
      assert ([Row(key, value)] + rows)[1..] == rows;
    } else if rows[0].key == key {
      assert ([Row(key, value)] + rows[1..])[1..] == rows[1..];
    } else {
      SumPut(rows[1..], key, value);
      assert ([rows[0]] + Put(rows[1..], key, value))[1..] == Put(rows[1..], key, value);
    }
  }

  lemma {:induction false} SumDrop(rows: seq<Row<nat>>, key: nat)
    ensures Sum(Drop(rows, key)) == Sum(rows) - Lookup(rows, key).GetOr(0)
  {
    if rows != [] && rows[0].key != key {
      SumDrop(rows[1..], key);
      assert ([rows[0]] + Drop(rows[1..], key))[1..] == Drop(rows[1..], key);
    }
  }

  lemma {:induction false} LookupAtMostSum(rows: seq<Row<nat>>, key: nat)
    ensures Lookup<nat>(rows, key).GetOr(0) <= Sum(rows)
  {
    if rows != [] && rows[0].key != key {
      LookupAtMostSum(rows[1..], key);
    }
  }

  // ---------- Bisection ----------

  /** `binary_search_by`: the position of the key, or the position where it belongs. */
  method BinarySearch<V>(rows: seq<Row<V>>, key: nat) returns (found: bool, at: nat)
    requires Ascending(rows)
    ensures IsPosition(rows, key, found, at)
  {
    var lo, hi: nat := 0, |rows|;
    while lo < hi
      invariant lo <= hi <= |rows|
      invariant forall i :: 0 <= i < lo ==> rows[i].key < key
      invariant forall i :: hi <= i < |rows| ==> key < rows[i].key
    {
      var mid := (lo + hi) / 2;
      if rows[mid].key == key {
        return true, mid;
      } else if rows[mid].key < key {
        lo := mid + 1;
      } else {
        hi := mid;
      }
    }
    return false, lo;
  }

  lemma {:induction false} PutSkips<V>(left: seq<Row<V>>, right: seq<Row<V>>, key: nat, value: V)
    requires forall i :: 0 <= i < |left| ==> left[i].key < key
    ensures Put(left + right, key, value) == left + Put(right, key, value)
  {
    if left == [] {
      assert left + right == right;
    } else {
      PutSkips(left[1..], right, key, value);
      assert (left + right)[1..] == left[1..] + right;
      assert left == [left[0]] + left[1..];
    }
  }

  lemma DropNext<V>(first: Row<V>, rest: seq<Row<V>>, key: nat)
    requires first.key < key
    ensures Drop([first] + rest, key) == [first] + Drop(rest, key)
    ensures Lookup([first] + rest, key) == Lookup(rest, key)
  {
  }

  lemma {:induction false} DropSkips<V>(left: seq<Row<V>>, right: seq<Row<V>>, key: nat)
    requires forall i :: 0 <= i < |left| ==> left[i].key < key
    ensures Drop(left + right, key) == left + Drop(right, key)
    ensures Lookup(left + right, key) == Lookup(right, key)
  {
    if left == [] {
      assert left + right == right;
    } else {
      var first, rest := left[0], left[1..];
      DropSkips(rest, right, key);
      assert left == [first] + rest;
      Assoc([first], rest, right);
      DropNext(first, rest + right, key);
      Assoc([first], rest, Drop(right, key));
    }
  }

  /** What bisection establishes about the position it returns. */
  ghost predicate IsPosition<V>(rows: seq<Row<V>>, key: nat, found: bool, at: nat) {
    && at <= |rows|
    && (found ==> at < |rows| && rows[at].key == key)
    && (forall i :: 0 <= i < at ==> rows[i].key < key)
    && (forall i :: at <= i < |rows| && (!found || i > at) ==> key < rows[i].key)
  }

  /** Splicing at the bisected position is `Put`. */
  lemma PutAt<V>(rows: seq<Row<V>>, key: nat, value: V, found: bool, at: nat)
    requires IsPosition(rows, key, found, at)
    ensures Put(rows, key, value) == rows[..at] + [Row(key, value)] + rows[if found then at + 1 else at..]
  {
    var left, right := rows[..at], rows[at..];
    assert rows == left + right;
    PutSkips(left, right, key, value);
    assert found ==> right[1..] == rows[at + 1..];
  }

  lemma DropAt<V>(rows: seq<Row<V>>, key: nat, found: bool, at: nat)
    requires Ascending(rows) && IsPosition(rows, key, found, at)
    ensures Drop(rows, key) == if found then rows[..at] + rows[at + 1..] else rows
    ensures Lookup(rows, key) == if found then Some(rows[at].value) else None
  {
    var left, right := rows[..at], rows[at..];
    assert rows == left + right;
    DropSkips(left, right, key);
    if found {
      assert right[1..] == rows[at + 1..];
    } else {
      LookupBelow(right, key);
      DropMissing(right, key);
    }
  }

  lemma {:induction false} DropMissing<V>(rows: seq<Row<V>>, key: nat)
    requires Lookup(rows, key).None?
    ensures Drop(rows, key) == rows
  {
    if rows != [] {
      DropMissing(rows[1..], key);
    }
  }
}
