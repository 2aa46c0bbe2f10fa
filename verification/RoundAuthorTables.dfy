/** `RoundAuthors` of `moonbeam-orbiters/src/types.rs`: a sorted table counting blocks per author. */
module RoundAuthorTables {
  import opened Integers
  import opened Xcm
  import opened SortedRows

  type Account = nat


  function Increment(counter: nat): nat {
    if counter < U32_MAX then counter + 1 else U32_MAX
  }

  class RoundAuthors {
    var data: seq<Row<nat>>
    var blocksCount: nat

    constructor ()
      ensures data == [] && blocksCount == 0
    {
      data, blocksCount := [], 0;
    }

    method AddAuthor(author: Account)
      requires Ascending(data) && blocksCount < U32_MAX
      modifies this
      ensures (data, blocksCount) == Count((old(data), old(blocksCount)), author)
      ensures Ascending(data)
    {
      var found, at := BinarySearch(data, author);
      DropAt(data, author, found, at);
      var value := if found then Increment(data[at].value) else 1;
      PutAt(data, author, value, found, at);
      PutLaws(data, author, value);
      data := data[..at] + [Row(author, value)] + data[if found then at + 1 else at..];
      blocksCount := blocksCount + 1;
    }
  }

  function Count(table: (seq<Row<nat>>, nat), author: Account): (seq<Row<nat>>, nat) {
    (Put(table.0, author, Increment(Lookup<nat>(table.0, author).GetOr(0))), table.1 + 1)
  }

  /** The table after the blocks of `authors`, in that order. */
  function Table(authors: seq<Account>): (seq<Row<nat>>, nat) {
    if authors == [] then ([], 0)
    else Count(Table(authors[..|authors| - 1]), authors[|authors| - 1])
  }

  /** The table is the histogram of the authors, and its counters sum to the number of blocks. */
  lemma {:induction false} TableIsHistogram(authors: seq<Account>)
    requires |authors| <= U32_MAX
    ensures var (data, blocks) := Table(authors);
            && Ascending(data)
            && (forall a :: Lookup(data, a) == if a in authors then Some(multiset(authors)[a]) else None)
            && Sum(data) == blocks == |authors|
  {
    if authors != [] {
      var front, last := authors[..|authors| - 1], authors[|authors| - 1];
      assert authors == front + [last];
      TableIsHistogram(front);
      var (data, blocks) := Table(front);
      LookupAtMostSum(data, last);
      var value := Increment(Lookup<nat>(data, last).GetOr(0));
      PutLaws(data, last, value);
      SumPut(data, last, value);
      forall a ensures a in authors <==> a in front || a == last {}
      forall a ensures Lookup(Table(authors).0, a) == if a in authors then Some(multiset(authors)[a]) else None {
        if a == last && a !in front { assert multiset(front)[a] == 0; }
      }
    }
  }

  /** The order of the blocks leaves no trace. */
  lemma TableForgetsOrder(xs: seq<Account>, ys: seq<Account>)
    requires |xs| <= U32_MAX && multiset(xs) == multiset(ys)
    ensures Table(xs) == Table(ys)
  {
    assert |multiset(xs)| == |multiset(ys)|;
    TableIsHistogram(xs);
    TableIsHistogram(ys);
    forall a ensures Lookup(Table(xs).0, a) == Lookup(Table(ys).0, a) {
      assert a in xs <==> a in multiset(xs);
      assert a in ys <==> a in multiset(ys);
    }
    Canonical(Table(xs).0, Table(ys).0);
  }
}
