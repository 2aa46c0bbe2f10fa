/** The XCM holding extension of the ERC-20 bridge (`xcm_holding_ext.rs`).

    A withdrawal of an ERC-20 token is not executed: the pair (holder, amount) is queued per
    contract, and a later deposit drains a prefix of the queue that sums to its amount. */
module XcmHolding {
  import opened Sequences

  // 20-byte EVM addresses; only equality matters.
  type Address = nat

  datatype Entry = Entry(holder: Address, amount: nat)

  datatype DrainError = AssetNotFound | NotEnoughFounds | SplitError

  datatype DrainResult = Drained(tokens: seq<Entry>) | DrainFailed(error: DrainError)

  type Origins = map<Address, seq<Entry>>

  function Queue(origins: Origins, contract: Address): seq<Entry> {
    if contract in origins then origins[contract] else []
  }

  function Total(entries: seq<Entry>): nat {
    if entries == [] then 0 else entries[0].amount + Total(entries[1..])
  }

  // ---------- What a drain is meant to return ----------

  /** The first `n` entries, at least one, sum to exactly `amount`. */
  ghost predicate Matches(entries: seq<Entry>, amount: nat, n: nat) {
    0 < n <= |entries| && Total(entries[..n]) == amount
  }

  ghost predicate Overshoots(entries: seq<Entry>, amount: nat, n: nat) {
    0 < n <= |entries| && Total(entries[..n]) > amount
  }

  ghost predicate HasMatch(entries: seq<Entry>, amount: nat) {
    exists n: nat :: Matches(entries, amount, n)
  }

  ghost predicate HasOvershoot(entries: seq<Entry>, amount: nat) {
    exists n: nat :: Overshoots(entries, amount, n)
  }

  // ---------- The drain as a function of one queue ----------

  function DrainOf(entries: seq<Entry>, amount: nat): (r: DrainResult)
    ensures r.Drained? ==> 0 < |r.tokens| <= |entries|
  {
    if entries == [] then DrainFailed(NotEnoughFounds)
    else if amount > entries[0].amount then Prepend([entries[0]], DrainOf(entries[1..], amount - entries[0].amount))
    else if amount == entries[0].amount then Drained([entries[0]])
    else DrainFailed(SplitError)
  }

  function Prepend(front: seq<Entry>, r: DrainResult): DrainResult {
    match r
    case Drained(tokens) => Drained(front + tokens)
    case DrainFailed(_) => r
  }

  /** Effect of `drain` on the whole map, and its result. */
  function DrainFrom(origins: Origins, contract: Address, amount: nat): (Origins, DrainResult) {
    if contract !in origins then (origins, DrainFailed(AssetNotFound))
    else
      var r := DrainOf(origins[contract], amount);
      match r
      case DrainFailed(_) => (origins, r)
      case Drained(tokens) => (origins[contract := origins[contract][|tokens|..]], r)
  }

  function InsertInto(origins: Origins, contract: Address, who: Address, amount: nat): Origins {
    origins[contract := Queue(origins, contract) + [Entry(who, amount)]]
  }

  // ---------- Sums of prefixes ----------

  lemma {:induction false} TotalConcat(a: seq<Entry>, b: seq<Entry>)
    ensures Total(a + b) == Total(a) + Total(b)
  {
    if a == [] {
      assert a + b == b;
    } else {
      TotalConcat(a[1..], b);
      assert (a + b)[1..] == a[1..] + b;
    }
  }

  lemma PrefixStep(entries: seq<Entry>, n: nat)
    requires 0 < n <= |entries|
    ensures Total(entries[..n]) == entries[0].amount + Total(entries[1..][..n - 1])
  {
    assert entries[..n][1..] == entries[1..][..n - 1];
  }

  lemma PrefixMonotone(entries: seq<Entry>, m: nat, n: nat)
    requires m <= n <= |entries|
    ensures Total(entries[..m]) <= Total(entries[..n])
  {
    assert entries[..n] == entries[..m] + entries[m..n];
    TotalConcat(entries[..m], entries[m..n]);
  }

  // ---------- A drain is characterised exactly ----------

  lemma OvershootStep(entries: seq<Entry>, amount: nat)
    requires entries != [] && entries[0].amount < amount
    ensures HasOvershoot(entries, amount) <==> HasOvershoot(entries[1..], amount - entries[0].amount)
  {
    var first, rest := entries[0].amount, entries[1..];
    forall n | 0 < n <= |entries| ensures Total(entries[..n]) == first + Total(rest[..n - 1]) {
      PrefixStep(entries, n);
    }
    if HasOvershoot(rest, amount - first) {
      var n: nat :| Overshoots(rest, amount - first, n);
      assert Overshoots(entries, amount, n + 1);
    }
    if HasOvershoot(entries, amount) {
      var n: nat :| Overshoots(entries, amount, n);
      assert Total(rest[..n - 1]) > amount - first;
      assert n - 1 != 0;
      assert Overshoots(rest, amount - first, n - 1);
    }
  }

  /** Outcome by outcome, in terms of prefix sums only. */
  lemma {:induction false} DrainCharacterised(entries: seq<Entry>, amount: nat)
    ensures match DrainOf(entries, amount)
            case Drained(tokens) =>
              && Matches(entries, amount, |tokens|)
              && tokens == entries[..|tokens|]
              && (forall n :: 0 < n < |tokens| ==> Total(entries[..n]) < amount)
            case DrainFailed(e) =>
              && (forall n :: 0 < n <= |entries| ==> Total(entries[..n]) != amount)
              && e == if HasOvershoot(entries, amount) then SplitError else NotEnoughFounds
  {
    if entries == [] {
    } else {
      var first, rest := entries[0].amount, entries[1..];
      forall n | 0 < n <= |entries|
        ensures Total(entries[..n]) == first + Total(rest[..n - 1])
      {
        PrefixStep(entries, n);
      }
      if amount > first {
        DrainCharacterised(rest, amount - first);
        match DrainOf(rest, amount - first) {
          case Drained(tokens) =>
            assert ([entries[0]] + tokens)[1..] == tokens;
            assert [entries[0]] + tokens == entries[..|tokens| + 1];
            assert Total(entries[..|tokens| + 1]) == first + Total(rest[..|tokens|]);
          case DrainFailed(e) =>
            OvershootStep(entries, amount);
            forall n | 0 < n <= |entries|
              ensures Total(entries[..n]) != amount
            {
              if n > 1 { assert Total(rest[..n - 1]) != amount - first; }
            }
        }
      } else if amount == first {
        assert Total(entries[..1]) == first + Total(rest[..0]);
      } else {
        assert Overshoots(entries, amount, 1);
      }
    }
  }

  /** A drain succeeds exactly when some non-empty prefix sums to the amount. */
  lemma DrainSucceedsExactly(entries: seq<Entry>, amount: nat)
    ensures DrainOf(entries, amount).Drained? <==> HasMatch(entries, amount)
    ensures DrainOf(entries, amount) == DrainFailed(NotEnoughFounds)
       <==> (entries == [] || Total(entries) < amount)
  {
    DrainCharacterised(entries, amount);
    assert entries[..|entries|] == entries;
    forall n | 0 < n <= |entries|
      ensures Total(entries[..n]) <= Total(entries)
    {
      PrefixMonotone(entries, n, |entries|);
    }
    if entries != [] && Total(entries) > amount {
      assert Overshoots(entries, amount, |entries|);
    }
    if entries != [] && Total(entries) == amount {
      assert Matches(entries, amount, |entries|);
    }
  }

  // ---------- The object the executor keeps while a message runs ----------

  class XcmHoldingErc20sOrigins {
    var queues: Origins

    constructor ()
      ensures queues == map[]
    {
      queues := map[];
    }

    method Insert(contract: Address, who: Address, amount: nat)
      modifies this
      ensures queues == InsertInto(old(queues), contract, who, amount)
    {
      if contract !in queues {
        queues := queues[contract := []];
      }
      queues := queues[contract := queues[contract] + [Entry(who, amount)]];
    }

    /** The loop that walks the queue with a decreasing amount; the map is only read. */
    method DrainInner(contract: Address, wanted: nat) returns (r: DrainResult)
      ensures contract !in queues ==> r == DrainFailed(AssetNotFound)
      ensures contract in queues ==> r == DrainOf(queues[contract], wanted)
    {
      if contract !in queues {
        return DrainFailed(AssetNotFound);
      }
      var entries := queues[contract];
      var amount: nat := wanted;
      var tokens: seq<Entry> := [];
      for i := 0 to |entries|
        invariant tokens == entries[..i]
        invariant amount + Total(entries[..i]) == wanted
        invariant DrainOf(entries, wanted) == Prepend(tokens, DrainOf(entries[i..], amount))
      {
        assert entries[i..][0] == entries[i] && entries[i..][1..] == entries[i + 1..];
        assert entries[..i + 1] == entries[..i] + [entries[i]];
        TotalConcat(entries[..i], [entries[i]]);
        if amount > entries[i].amount {
          ghost var rest := DrainOf(entries[i + 1..], amount - entries[i].amount);
          if rest.Drained? { Assoc(tokens, [entries[i]], rest.tokens); }
          tokens := tokens + [entries[i]];
          amount := amount - entries[i].amount;
        } else if amount == entries[i].amount {
          tokens := tokens + [entries[i]];
          return Drained(tokens);
        } else {
          return DrainFailed(SplitError);
        }
      }
      return DrainFailed(NotEnoughFounds);
    }

    method Drain(contract: Address, amount: nat) returns (r: DrainResult)
      modifies this
      ensures (queues, r) == DrainFrom(old(queues), contract, amount)
      ensures r.DrainFailed? ==> queues == old(queues)
      ensures r.Drained? ==> Queue(old(queues), contract) == r.tokens + Queue(queues, contract)
    {
      r := DrainInner(contract, amount);
      if contract in queues {
        DrainCharacterised(queues[contract], amount);
      }
      if r.Drained? && contract in queues {
        queues := queues[contract := queues[contract][|r.tokens|..]];
      }
    }
  }
}
