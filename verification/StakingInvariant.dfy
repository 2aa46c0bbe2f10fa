/** The joint invariant of bonds, totals, pending requests and auto-compound settings, kept by every
    call, and what it means for execution: no error branch of a due request can be taken. */
module StakingInvariant {
  import opened Integers
  import opened Xcm
  import opened SortedRows
  import opened Staking

  // ---------- Lists of requests ----------

  ghost predicate OnePerDelegator(list: seq<ScheduledRequest>) {
    forall i, j :: 0 <= i < j < |list| ==> list[i].delegator != list[j].delegator
  }

  lemma {:induction false} NoRequest(list: seq<ScheduledRequest>, d: Account)
    requires forall i :: 0 <= i < |list| ==> list[i].delegator != d
    ensures RequestOf(list, d) == None
  {
    if list != [] { NoRequest(list[1..], d); }
  }

  lemma {:induction false} RequestAbsent(list: seq<ScheduledRequest>, d: Account, i: nat)
    requires RequestOf(list, d).None? && i < |list|
    ensures list[i].delegator != d
  {
    if i > 0 { RequestAbsent(list[1..], d, i - 1); }
  }

  lemma {:induction false} RequestIn(list: seq<ScheduledRequest>, d: Account)
    ensures RequestOf(list, d).Some? ==> RequestOf(list, d).value in list && RequestOf(list, d).value.delegator == d
  {
    if list != [] { RequestIn(list[1..], d); }
  }

  lemma {:induction false} PushLaws(list: seq<ScheduledRequest>, request: ScheduledRequest)
    requires OnePerDelegator(list) && RequestOf(list, request.delegator).None?
    ensures OnePerDelegator(list + [request])
    ensures forall e :: RequestOf(list + [request], e)
                     == if e == request.delegator then Some(request) else RequestOf(list, e)
    ensures WithoutRequest(list + [request], request.delegator) == list
  {
    if list == [] {
      assert list + [request] == [request];
    } else {
      PushLaws(list[1..], request);
      assert (list + [request])[1..] == list[1..] + [request];
      forall i | 0 <= i < |list| ensures list[i].delegator != request.delegator {
        RequestAbsent(list, request.delegator, i);
      }
    }
  }

  lemma {:induction false} WithoutLaws(list: seq<ScheduledRequest>, d: Account)
    requires OnePerDelegator(list)
    ensures OnePerDelegator(WithoutRequest(list, d))
    ensures forall r :: r in WithoutRequest(list, d) ==> r in list
    ensures forall e :: RequestOf(WithoutRequest(list, d), e) == if e == d then None else RequestOf(list, e)
  {
    if list == [] {
    } else if list[0].delegator == d {
      NoRequest(list[1..], d);
    } else {
      WithoutLaws(list[1..], d);
      var rest := WithoutRequest(list[1..], d);
      assert ([list[0]] + rest)[1..] == rest;
      forall j | 0 <= j < |rest| ensures list[0].delegator != rest[j].delegator {
        assert rest[j] in list[1..];
      }
    }
  }

  // ---------- The sum of what a delegator has pending ----------

  function PendingAmount(requests: Requests, collator: Account, d: Account): nat {
    match RequestOf(RequestsFor(requests, collator), d)
    case None => 0
    case Some(r) => r.action.amount
  }

  /** Over the candidates of a list of bonds. */
  function PendingOver(requests: Requests, bonds: seq<Bond>, d: Account): nat {
    if bonds == [] then 0
    else PendingAmount(requests, bonds[0].key, d) + PendingOver(requests, bonds[1..], d)
  }

  lemma {:induction false} PendingFrame(r0: Requests, r1: Requests, bonds: seq<Bond>, d: Account)
    requires forall i :: 0 <= i < |bonds| ==> PendingAmount(r0, bonds[i].key, d) == PendingAmount(r1, bonds[i].key, d)
    ensures PendingOver(r0, bonds, d) == PendingOver(r1, bonds, d)
  {
    if bonds != [] { PendingFrame(r0, r1, bonds[1..], d); }
  }

  lemma {:induction false} PendingChange(r0: Requests, r1: Requests, bonds: seq<Bond>, d: Account, c: Account)
    requires Ascending(bonds) && Lookup(bonds, c).Some?
    requires forall k :: k != c ==> PendingAmount(r0, k, d) == PendingAmount(r1, k, d)
    ensures PendingOver(r1, bonds, d) == PendingOver(r0, bonds, d) - PendingAmount(r0, c, d) + PendingAmount(r1, c, d)
  {
    if bonds[0].key == c {
      PendingFrame(r0, r1, bonds[1..], d);
    } else {
      PendingChange(r0, r1, bonds[1..], d, c);
    }
  }

  lemma {:induction false} PendingDrop(r: Requests, bonds: seq<Bond>, d: Account, c: Account)
    requires Lookup(bonds, c).Some?
    ensures PendingOver(r, Drop(bonds, c), d) == PendingOver(r, bonds, d) - PendingAmount(r, c, d)
  {
    if bonds[0].key != c {
      PendingDrop(r, bonds[1..], d, c);
      assert ([bonds[0]] + Drop(bonds[1..], c))[1..] == Drop(bonds[1..], c);
    }
  }

  lemma {:induction false} PendingPut(r: Requests, bonds: seq<Bond>, d: Account, c: Account, amount: nat)
    requires Ascending(bonds)
    ensures PendingOver(r, Put(bonds, c, amount), d)
         == PendingOver(r, bonds, d) + if Lookup(bonds, c).Some? then 0 else PendingAmount(r, c, d)
  {
    if bonds == [] || c < bonds[0].key {
      LookupBelow(bonds, c);
      assert ([Row(c, amount)] + bonds)[1..] == bonds;
    } else if bonds[0].key == c {
      assert ([Row(c, amount)] + bonds[1..])[1..] == bonds[1..];
    } else {
      PendingPut(r, bonds[1..], d, c, amount);
      assert ([bonds[0]] + Put(bonds[1..], c, amount))[1..] == Put(bonds[1..], c, amount);
    }
  }

  // ---------- The invariant ----------

  ghost predicate DelegatorOk(cfg: Config, s: State, d: Account)
    requires d in s.delegators
  {
    var st := s.delegators[d];
    && st.id == d
    && st.delegations != []
    && Ascending(st.delegations)
    && (forall i :: 0 <= i < |st.delegations| ==> BondOk(cfg, s, st.delegations[i]))
    && st.total == Sum(st.delegations)
    && st.total <= Amount(s.funds, d) <= U128_MAX
    && st.lessTotal == PendingOver(s.requests, st.delegations, d)
  }

  ghost predicate BondOk(cfg: Config, s: State, b: Bond) {
    cfg.minDelegation <= b.value && b.key in s.candidates
  }

  /** A pending request is backed by the bond it will take from. */
  ghost predicate Backed(cfg: Config, bond: Option<nat>, action: DelegationAction) {
    && bond.Some?
    && match action
       case Revoke(amount) => amount == bond.value
       case Decrease(amount) => amount + cfg.minDelegation <= bond.value
  }

  ghost predicate PairOk(cfg: Config, s: State, c: Account, d: Account) {
    Requested(s, c, d).Some? ==> Backed(cfg, Bonded(s, d, c), Requested(s, c, d).value.action)
  }

  ghost predicate AutoOk(s: State, c: Account) {
    var rows := AutoCompoundFor(s.autoCompounds, c);
    && Ascending(rows)
    && (forall d :: Lookup(rows, d).Some? ==> Lookup(rows, d).value != 0 && Bonded(s, d, c).Some?)
  }

  ghost predicate Inv(cfg: Config, s: State) {
    && cfg.minDelegation > 0
    && (forall d :: d in s.delegators ==> DelegatorOk(cfg, s, d))
    && (forall c, d :: PairOk(cfg, s, c, d))
    && (forall c :: OnePerDelegator(RequestsFor(s.requests, c)))
    && (forall c :: AutoOk(s, c))
  }

  // ---------- What the invariant says about one delegation ----------

  lemma {:induction false} RowsOk(cfg: Config, s: State, bonds: seq<Bond>)
    requires Ascending(bonds) && forall k :: Lookup(bonds, k).Some? ==> BondOk(cfg, s, Row(k, Lookup(bonds, k).value))
    ensures forall i :: 0 <= i < |bonds| ==> BondOk(cfg, s, bonds[i])
  {
    forall i | 0 <= i < |bonds| ensures BondOk(cfg, s, bonds[i]) {
      LookupAt(bonds, i);
    }
  }

  lemma BondedIsOk(cfg: Config, s: State, d: Account, c: Account)
    requires Inv(cfg, s) && Bonded(s, d, c).Some?
    ensures BondOk(cfg, s, Row(c, Bonded(s, d, c).value))
    ensures Bonded(s, d, c).value <= s.delegators[d].total
  {
    var bonds := s.delegators[d].delegations;
    assert DelegatorOk(cfg, s, d);
    var i := LookupFound(bonds, c);
    LookupAtMostSum(bonds, c);
  }

  lemma {:induction false} PendingAtMostBonds(cfg: Config, s: State, d: Account, bonds: seq<Bond>)
    requires forall c, e :: PairOk(cfg, s, c, e)
    requires d in s.delegators && Ascending(bonds)
    requires forall k :: Lookup(bonds, k).Some? ==> Lookup(bonds, k) == Bonded(s, d, k)
    ensures PendingOver(s.requests, bonds, d) <= Sum(bonds)
  {
    if bonds != [] {
      var c := bonds[0].key;
      assert Lookup(bonds, c) == Bonded(s, d, c);
      assert PairOk(cfg, s, c, d);
      forall k | Lookup(bonds[1..], k).Some? ensures Lookup(bonds[1..], k) == Bonded(s, d, k) {
        LookupBelow(bonds[1..], c);
        assert Lookup(bonds, k).Some?;
      }
      PendingAtMostBonds(cfg, s, d, bonds[1..]);
    }
  }

  /** `lessTotal` never exceeds `total`, and leaves room for every bond without a request. */
  lemma PendingFits(cfg: Config, s: State, d: Account, c: Account)
    requires Inv(cfg, s) && Bonded(s, d, c).Some?
    ensures s.delegators[d].lessTotal <= s.delegators[d].total
    ensures PendingAmount(s.requests, c, d) <= s.delegators[d].lessTotal
    ensures Requested(s, c, d).None? ==>
      s.delegators[d].lessTotal + Bonded(s, d, c).value <= s.delegators[d].total
  {
    var bonds := s.delegators[d].delegations;
    assert DelegatorOk(cfg, s, d);
    PendingAtMostBonds(cfg, s, d, bonds);
    PendingDrop(s.requests, bonds, d, c);
    DropLaws(bonds, c);
    SumDrop(bonds, c);
    forall k | Lookup(Drop(bonds, c), k).Some? ensures Lookup(Drop(bonds, c), k) == Bonded(s, d, k) {
    }
    PendingAtMostBonds(cfg, s, d, Drop(bonds, c));
  }

  // ---------- Every due request executes ----------

  lemma DueRequestExecutes(cfg: Config, s: State, c: Account, d: Account)
    requires Inv(cfg, s)
    requires Requested(s, c, d).Some? && Requested(s, c, d).value.whenExecutable <= s.round
    ensures Execute(cfg, s, c, d).1 == Ok(())
  {
    assert PairOk(cfg, s, c, d);
    BondedIsOk(cfg, s, d, c);
    var st := s.delegators[d];
    var bonds := st.delegations;
    assert DelegatorOk(cfg, s, d);
    var request := Requested(s, c, d).value;
    if request.action.Revoke? && |bonds| != 1 {
      // Another bond remains, worth at least the minimum.
      DropLaws(bonds, c);
      SumDrop(bonds, c);
      var other := Drop(bonds, c)[0];
      assert other in bonds;
      assert BondOk(cfg, s, other);
      assert Sum(Drop(bonds, c)) >= other.value;
    }
  }
}
