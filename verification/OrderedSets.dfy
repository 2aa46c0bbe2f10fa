/** `parachain-staking/src/set.rs`: ordered sets backed by a vector. Elements are rows compared by
    their key alone, as bonds are compared by their owner alone. */
module OrderedSets {
  import opened Xcm
  import opened SortedRows

  class OrderedSet<V> {
    var rows: seq<Row<V>>

    ghost predicate Valid() reads this { Ascending(rows) }

    constructor ()
      ensures Valid() && rows == []
    {
      rows := [];
    }

    /** `sort` then `dedup`: for each key, the first element with that key. */
    constructor From(elements: seq<Row<V>>)
      ensures Valid()
      ensures forall k :: Lookup(rows, k) == Lookup(elements, k)
    {
      rows := [];
      new;
      var i := |elements|;
      while i > 0
        invariant 0 <= i <= |elements|
        invariant Valid()
        invariant forall k :: Lookup(rows, k) == Lookup(elements[i..], k)
      {
        i := i - 1;
        var x := elements[i];
        assert elements[i..][1..] == elements[i + 1..];
        PutLaws(rows, x.key, x.value);
        var found, at := BinarySearch(rows, x.key);
        PutAt(rows, x.key, x.value, found, at);
        rows := rows[..at] + [x] + rows[if found then at + 1 else at..];
      }
      assert elements[0..] == elements;
    }

    method Insert(value: Row<V>) returns (inserted: bool)
      requires Valid()
      modifies this
      ensures Valid()
      ensures inserted <==> Lookup(old(rows), value.key).None?
      ensures rows == if inserted then Put(old(rows), value.key, value.value) else old(rows)
    {
      var found, at := BinarySearch(rows, value.key);
      DropAt(rows, value.key, found, at);
      if found {
        return false;
      }
      PutAt(rows, value.key, value.value, found, at);
      PutLaws(rows, value.key, value.value);
      rows := rows[..at] + [value] + rows[at..];
      return true;
    }

    method Remove(key: nat) returns (removed: bool)
      requires Valid()
      modifies this
      ensures Valid()
      ensures removed <==> Lookup(old(rows), key).Some?
      ensures rows == Drop(old(rows), key)
    {
      var found, at := BinarySearch(rows, key);
      DropAt(rows, key, found, at);
      DropLaws(rows, key);
      if found {
        rows := rows[..at] + rows[at + 1..];
      }
      return found;
    }

    method Contains(key: nat) returns (r: bool)
      requires Valid()
      ensures r <==> Lookup(rows, key).Some?
    {
      var found, at := BinarySearch(rows, key);
      DropAt(rows, key, found, at);
      return found;
    }

    method Clear()
      modifies this
      ensures Valid() && rows == []
    {
      rows := [];
    }
  }

  class BoundedOrderedSet<V> {
    const bound: nat
    var rows: seq<Row<V>>

    ghost predicate Valid() reads this { Ascending(rows) && |rows| <= bound }

    constructor (bound: nat)
      ensures Valid() && rows == [] && this.bound == bound
    {
      this.bound, rows := bound, [];
    }

    method TryInsert(value: Row<V>) returns (r: Result<bool, ()>)
      requires Valid()
      modifies this
      ensures Valid()
      ensures r == if Lookup(old(rows), value.key).Some? then Ok(false)
                   else if |old(rows)| == bound then Err(()) else Ok(true)
      ensures rows == if r == Ok(true) then Put(old(rows), value.key, value.value) else old(rows)
    {
      var found, at := BinarySearch(rows, value.key);
      DropAt(rows, value.key, found, at);
      if found {
        return Ok(false);
      }
      if |rows| >= bound {
        return Err(());
      }
      PutAt(rows, value.key, value.value, found, at);
      PutLaws(rows, value.key, value.value);
      rows := rows[..at] + [value] + rows[at..];
      return Ok(true);
    }

    method Remove(key: nat) returns (removed: bool)
      requires Valid()
      modifies this
      ensures Valid()
      ensures removed <==> Lookup(old(rows), key).Some?
      ensures rows == Drop(old(rows), key)
    {
      var found, at := BinarySearch(rows, key);
      DropAt(rows, key, found, at);
      DropLaws(rows, key);
      if found {
        rows := rows[..at] + rows[at + 1..];
      }
      return found;
    }
  }

  // ---------- Every sequence of operations answers as a mathematical set does ----------

  datatype SetOp = Insert(k: nat) | Remove(k: nat) | Contains(k: nat) | Clear

  function VectorStep(rows: seq<Row<()>>, op: SetOp): (seq<Row<()>>, bool) {
    match op
    case Insert(k) => if Lookup(rows, k).Some? then (rows, false) else (Put(rows, k, ()), true)
    case Remove(k) => (Drop(rows, k), Lookup(rows, k).Some?)
    case Contains(k) => (rows, Lookup(rows, k).Some?)
    case Clear => ([], true)
  }

  function SetStep(elements: set<nat>, op: SetOp): (set<nat>, bool) {
    match op
    case Insert(k) => (elements + {k}, k !in elements)
    case Remove(k) => (elements - {k}, k in elements)
    case Contains(k) => (elements, k in elements)
    case Clear => ({}, true)
  }

  function VectorRun(rows: seq<Row<()>>, ops: seq<SetOp>): (seq<Row<()>>, seq<bool>)
    decreases |ops|
  {
    if ops == [] then (rows, [])
    else
      var (next, answer) := VectorStep(rows, ops[0]);
      var (last, answers) := VectorRun(next, ops[1..]);
      (last, [answer] + answers)
  }

  function SetRun(elements: set<nat>, ops: seq<SetOp>): (set<nat>, seq<bool>)
    decreases |ops|
  {
    if ops == [] then (elements, [])
    else
      var (next, answer) := SetStep(elements, ops[0]);
      var (last, answers) := SetRun(next, ops[1..]);
      (last, [answer] + answers)
  }

  ghost predicate Represents(rows: seq<Row<()>>, elements: set<nat>) {
    Ascending(rows) && forall k :: Lookup(rows, k).Some? <==> k in elements
  }

  lemma {:induction false} VectorRefinesSet(rows: seq<Row<()>>, elements: set<nat>, ops: seq<SetOp>)
    requires Represents(rows, elements)
    ensures VectorRun(rows, ops).1 == SetRun(elements, ops).1
    ensures Represents(VectorRun(rows, ops).0, SetRun(elements, ops).0)
    decreases |ops|
  {
    if ops != [] {
      match ops[0] {
        case Insert(k) => PutLaws(rows, k, ());
        case Remove(k) => DropLaws(rows, k);
        case _ =>
      }
      VectorRefinesSet(VectorStep(rows, ops[0]).0, SetStep(elements, ops[0]).0, ops[1..]);
    }
  }

  /** One vector per set: the representation does not remember the order of the insertions. */
  lemma RepresentationIsUnique(a: seq<Row<()>>, b: seq<Row<()>>, elements: set<nat>)
    requires Represents(a, elements) && Represents(b, elements)
    ensures a == b
  {
    forall k ensures Lookup(a, k) == Lookup(b, k) {
      if k in elements {
        assert Lookup(a, k).value == () == Lookup(b, k).value;
      }
    }
    Canonical(a, b);
  }
}
