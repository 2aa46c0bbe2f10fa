/** Every call keeps the joint invariant; no saturating operation saturates on the way. */
module StakingPreservation {
  import opened Integers
  import opened Xcm
  import opened SortedRows
  import opened Staking
  import opened StakingInvariant

  // ---------- One delegator and one candidate at a time ----------

  /** `t` differs from `s` at most in delegator `d`, its request and its auto-compound row at `c`. */
  ghost predicate OnlyPairChanged(s: State, t: State, c: Account, d: Account) {
    && s.candidates == t.candidates && s.funds == t.funds
    && (forall e :: e != d ==> (e in s.delegators <==> e in t.delegators))
    && (forall e :: e != d && e in s.delegators ==> t.delegators[e] == s.delegators[e])
    && (forall k :: k != c ==> RequestsFor(s.requests, k) == RequestsFor(t.requests, k))
    && (forall e :: e != d ==> Requested(s, c, e) == Requested(t, c, e))
    && (forall k :: k != c ==> AutoCompoundFor(s.autoCompounds, k) == AutoCompoundFor(t.autoCompounds, k))
    && (forall e :: e != d ==>
          Lookup(AutoCompoundFor(s.autoCompounds, c), e) == Lookup(AutoCompoundFor(t.autoCompounds, c), e))
    && (forall k :: k != c ==> Bonded(s, d, k) == Bonded(t, d, k))
  }

  /** What remains to be shown about the changed pair itself. */
  ghost predicate PairSound(cfg: Config, t: State, c: Account, d: Account) {
    && (d in t.delegators ==> DelegatorOk(cfg, t, d))
    && PairOk(cfg, t, c, d)
    && OnePerDelegator(RequestsFor(t.requests, c))
    && Ascending(AutoCompoundFor(t.autoCompounds, c))
    && (Lookup(AutoCompoundFor(t.autoCompounds, c), d).Some? ==>
          Lookup(AutoCompoundFor(t.autoCompounds, c), d).value != 0 && Bonded(t, d, c).Some?)
  }

  lemma OthersKeepOk(cfg: Config, s: State, t: State, c: Account, d: Account, e: Account)
    requires Inv(cfg, s) && OnlyPairChanged(s, t, c, d) && e != d && e in t.delegators
    ensures DelegatorOk(cfg, t, e)
  {
    assert DelegatorOk(cfg, s, e);
    var bonds := s.delegators[e].delegations;
    forall k ensures PendingAmount(s.requests, k, e) == PendingAmount(t.requests, k, e) {
      if k == c { assert Requested(s, c, e) == Requested(t, c, e); }
    }
    PendingFrame(s.requests, t.requests, bonds, e);
    forall i | 0 <= i < |bonds| ensures BondOk(cfg, t, bonds[i]) {
      assert BondOk(cfg, s, bonds[i]);
    }
  }

  lemma AutoKept(cfg: Config, s: State, t: State, c: Account, d: Account, k: Account)
    requires Inv(cfg, s) && OnlyPairChanged(s, t, c, d) && PairSound(cfg, t, c, d)
    ensures AutoOk(t, k)
  {
    assert AutoOk(s, k);
    var rows := AutoCompoundFor(t.autoCompounds, k);
    forall e | Lookup(rows, e).Some? ensures Lookup(rows, e).value != 0 && Bonded(t, e, k).Some? {
      if k == c && e == d {
      } else {
        assert Lookup(AutoCompoundFor(s.autoCompounds, k), e) == Lookup(rows, e);
        assert Bonded(s, e, k).Some?;
      }
    }
  }

  lemma PairStep(cfg: Config, s: State, t: State, c: Account, d: Account)
    requires Inv(cfg, s) && OnlyPairChanged(s, t, c, d) && PairSound(cfg, t, c, d)
    ensures Inv(cfg, t)
  {
    forall e | e in t.delegators ensures DelegatorOk(cfg, t, e) {
      if e != d { OthersKeepOk(cfg, s, t, c, d, e); }
    }
    forall k, e ensures PairOk(cfg, t, k, e) {
      if k != c || e != d {
        assert PairOk(cfg, s, k, e);
        assert Requested(s, k, e) == Requested(t, k, e);
        assert Bonded(s, e, k) == Bonded(t, e, k);
      }
    }
    forall k ensures OnePerDelegator(RequestsFor(t.requests, k)) {
      assert OnePerDelegator(RequestsFor(s.requests, k));
    }
    forall k ensures AutoOk(t, k) {
      AutoKept(cfg, s, t, c, d, k);
    }
  }

  // ---------- Scheduling ----------

  lemma PushDelegator(cfg: Config, s: State, c: Account, request: ScheduledRequest)
    requires Inv(cfg, s) && request.delegator in s.delegators
    requires Requested(s, c, request.delegator).None?
    requires Backed(cfg, Bonded(s, request.delegator, c), request.action)
    ensures DelegatorOk(cfg, Push(s, c, s.delegators[request.delegator], request), request.delegator)
    ensures s.delegators[request.delegator].lessTotal + request.action.amount <= U128_MAX
  {
    var d := request.delegator;
    var st := s.delegators[d];
    var t := Push(s, c, st, request);
    assert DelegatorOk(cfg, s, d);
    assert OnePerDelegator(RequestsFor(s.requests, c));
    PendingFits(cfg, s, d, c);
    PushLaws(RequestsFor(s.requests, c), request);
    PendingChange(s.requests, t.requests, st.delegations, d, c);
    forall i | 0 <= i < |st.delegations| ensures BondOk(cfg, t, st.delegations[i]) {
      assert BondOk(cfg, s, st.delegations[i]);
    }
  }

  lemma PushKeeps(cfg: Config, s: State, c: Account, request: ScheduledRequest)
    requires Inv(cfg, s) && request.delegator in s.delegators
    requires Requested(s, c, request.delegator).None?
    requires Backed(cfg, Bonded(s, request.delegator, c), request.action)
    ensures Inv(cfg, Push(s, c, s.delegators[request.delegator], request))
    ensures s.delegators[request.delegator].lessTotal + request.action.amount <= U128_MAX
  {
    var d := request.delegator;
    PushDelegator(cfg, s, c, request);
    assert OnePerDelegator(RequestsFor(s.requests, c));
    PushLaws(RequestsFor(s.requests, c), request);
    assert AutoOk(s, c);
    PairStep(cfg, s, Push(s, c, s.delegators[d], request), c, d);
  }

  lemma ScheduleRevokeKeeps(cfg: Config, s: State, c: Account, d: Account)
    requires Inv(cfg, s)
    ensures Inv(cfg, ScheduleRevoke(cfg, s, c, d).0)
  {
    if ScheduleRevoke(cfg, s, c, d).1.Ok? {
      var bonded := Bonded(s, d, c).value;
      PushKeeps(cfg, s, c, ScheduledRequest(d, SaturatingAdd(s.round, cfg.revokeDelay, U32_MAX), Revoke(bonded)));
    }
  }

  lemma ScheduleDecreaseKeeps(cfg: Config, s: State, c: Account, d: Account, less: nat)
    requires Inv(cfg, s)
    ensures Inv(cfg, ScheduleDecrease(cfg, s, c, d, less).0)
  {
    if ScheduleDecrease(cfg, s, c, d, less).1.Ok? {
      PushKeeps(cfg, s, c, ScheduledRequest(d, SaturatingAdd(s.round, cfg.bondLessDelay, U32_MAX), Decrease(less)));
    }
  }

  /** The comment in the source, "Net Total is always >= MinDelegation", holds where it stands, with
      no saturation; and the check that follows it never rejects: the earlier one on the bond implies it. */
  lemma NetTotalCheckIsRedundant(cfg: Config, s: State, c: Account, d: Account, less: nat)
    requires Inv(cfg, s) && Bonded(s, d, c).Some? && Requested(s, c, d).None?
    ensures var st := s.delegators[d];
            && st.lessTotal + cfg.minDelegation <= st.total
            && (less + cfg.minDelegation <= Bonded(s, d, c).value ==>
                  less <= SaturatingSub(SaturatingSub(st.total, st.lessTotal), cfg.minDelegation))
  {
    PendingFits(cfg, s, d, c);
    BondedIsOk(cfg, s, d, c);
  }

  // ---------- Removing a request ----------

  lemma CancelDelegator(cfg: Config, s: State, c: Account, d: Account)
    requires Inv(cfg, s) && CancelRequest(s, c, d).1.Ok?
    ensures DelegatorOk(cfg, CancelRequest(s, c, d).0, d)
  {
    var t, st := CancelRequest(s, c, d).0, s.delegators[d];
    assert PairOk(cfg, s, c, d);
    assert DelegatorOk(cfg, s, d);
    assert OnePerDelegator(RequestsFor(s.requests, c));
    WithoutLaws(RequestsFor(s.requests, c), d);
    PendingFits(cfg, s, d, c);
    PendingChange(s.requests, t.requests, st.delegations, d, c);
    forall i | 0 <= i < |st.delegations| ensures BondOk(cfg, t, st.delegations[i]) {
      assert BondOk(cfg, s, st.delegations[i]);
    }
  }

  lemma CancelKeeps(cfg: Config, s: State, c: Account, d: Account)
    requires Inv(cfg, s)
    ensures Inv(cfg, CancelRequest(s, c, d).0)
  {
    if CancelRequest(s, c, d).1.Ok? {
      CancelDelegator(cfg, s, c, d);
      assert OnePerDelegator(RequestsFor(s.requests, c));
      WithoutLaws(RequestsFor(s.requests, c), d);
      assert AutoOk(s, c);
      PairStep(cfg, s, CancelRequest(s, c, d).0, c, d);
    }
  }

  // ---------- Ending a delegation ----------

  lemma RemoveAutoLaws(s: State, c: Account, d: Account)
    requires AutoOk(s, c)
    ensures var after := RemoveAutoCompound(s.autoCompounds, c, d);
            && Ascending(AutoCompoundFor(after, c))
            && (forall k :: k != c ==> AutoCompoundFor(after, k) == AutoCompoundFor(s.autoCompounds, k))
            && (forall e :: Lookup(AutoCompoundFor(after, c), e)
                  == if e == d then None else Lookup(AutoCompoundFor(s.autoCompounds, c), e))
  {
    DropLaws(AutoCompoundFor(s.autoCompounds, c), d);
  }

  /** The state once `d` has no delegation, no request and no auto-compound row at `c`. */
  ghost predicate Ended(s: State, t: State, c: Account, d: Account)
    requires d in s.delegators
  {
    && t == s.(requests := t.requests, delegators := t.delegators,
               autoCompounds := RemoveAutoCompound(s.autoCompounds, c, d))
    && (forall k :: RequestsFor(t.requests, k)
          == if k == c then WithoutRequest(RequestsFor(s.requests, c), d) else RequestsFor(s.requests, k))
    && t.delegators == if |s.delegators[d].delegations| == 1 then s.delegators - {d} else s.delegators[d :=
         Delegator(d, Drop(s.delegators[d].delegations, c),
                   SaturatingSub(s.delegators[d].total, Bonded(s, d, c).GetOr(0)),
                   SaturatingSub(s.delegators[d].lessTotal, PendingAmount(s.requests, c, d)))]
  }

  lemma EndedBonds(s: State, t: State, c: Account, d: Account)
    requires Bonded(s, d, c).Some? && Ascending(s.delegators[d].delegations) && Ended(s, t, c, d)
    ensures Bonded(t, d, c).None? && forall k :: k != c ==> Bonded(t, d, k) == Bonded(s, d, k)
    ensures d in t.delegators <==> |s.delegators[d].delegations| != 1
    ensures forall e :: e != d ==> (e in t.delegators <==> e in s.delegators)
    ensures forall e :: e != d && e in s.delegators ==> t.delegators[e] == s.delegators[e]
  {
    var bonds := s.delegators[d].delegations;
    DropLaws(bonds, c);
    forall k | k != c ensures Bonded(s, d, k) == Bonded(t, d, k) {
      if |bonds| == 1 { assert bonds[1..] == []; assert Lookup(bonds, k) == Lookup(bonds[1..], k); }
    }
  }

  lemma EndedPairs(cfg: Config, s: State, t: State, c: Account, d: Account)
    requires Inv(cfg, s) && Bonded(s, d, c).Some?
    requires s.delegators[d].lessTotal >= PendingAmount(s.requests, c, d)
    requires s.delegators[d].total >= Bonded(s, d, c).value
    requires Ended(s, t, c, d)
    ensures OnlyPairChanged(s, t, c, d)
    ensures Bonded(t, d, c).None? && Requested(t, c, d).None?
    ensures d in t.delegators <==> |s.delegators[d].delegations| != 1
  {
    assert DelegatorOk(cfg, s, d);
    EndedBonds(s, t, c, d);
    assert OnePerDelegator(RequestsFor(s.requests, c));
    WithoutLaws(RequestsFor(s.requests, c), d);
    assert AutoOk(s, c);
    RemoveAutoLaws(s, c, d);
  }

  lemma EndedDelegator(cfg: Config, s: State, t: State, c: Account, d: Account)
    requires Inv(cfg, s) && Bonded(s, d, c).Some?
    requires s.delegators[d].lessTotal >= PendingAmount(s.requests, c, d)
    requires s.delegators[d].total >= Bonded(s, d, c).value
    requires Ended(s, t, c, d) && d in t.delegators
    ensures DelegatorOk(cfg, t, d)
  {
    var bonds := s.delegators[d].delegations;
    assert DelegatorOk(cfg, s, d);
    EndedPairs(cfg, s, t, c, d);
    DropLaws(bonds, c);
    SumDrop(bonds, c);
    PendingDrop(s.requests, bonds, d, c);
    var rest := Drop(bonds, c);
    forall i | 0 <= i < |rest|
      ensures PendingAmount(s.requests, rest[i].key, d) == PendingAmount(t.requests, rest[i].key, d)
      ensures BondOk(cfg, t, rest[i])
    {
      LookupAt(rest, i);
      assert rest[i] in bonds;
      assert BondOk(cfg, s, rest[i]);
    }
    PendingFrame(s.requests, t.requests, rest, d);
  }

  lemma EndedKeeps(cfg: Config, s: State, t: State, c: Account, d: Account)
    requires Inv(cfg, s) && Bonded(s, d, c).Some?
    requires s.delegators[d].lessTotal >= PendingAmount(s.requests, c, d)
    requires s.delegators[d].total >= Bonded(s, d, c).value
    requires Ended(s, t, c, d)
    ensures Inv(cfg, t)
  {
    EndedPairs(cfg, s, t, c, d);
    if d in t.delegators {
      EndedDelegator(cfg, s, t, c, d);
    }
    assert OnePerDelegator(RequestsFor(s.requests, c));
    WithoutLaws(RequestsFor(s.requests, c), d);
    assert AutoOk(s, c);
    RemoveAutoLaws(s, c, d);
    PairStep(cfg, s, t, c, d);
  }

  // ---------- Executing ----------

  lemma RevokeEnds(cfg: Config, s: State, c: Account, d: Account)
    requires Inv(cfg, s) && Execute(cfg, s, c, d).1.Ok? && Requested(s, c, d).value.action.Revoke?
    ensures Bonded(s, d, c).Some?
    ensures s.delegators[d].lessTotal >= PendingAmount(s.requests, c, d)
    ensures s.delegators[d].total >= Bonded(s, d, c).value
    ensures Ended(s, Execute(cfg, s, c, d).0, c, d)
  {
    assert PairOk(cfg, s, c, d);
    assert DelegatorOk(cfg, s, d);
    PendingFits(cfg, s, d, c);
    BondedIsOk(cfg, s, d, c);
  }

  /** Setting one bond to an allowed amount keeps the list of bonds sound. */
  lemma PutBond(cfg: Config, s: State, t: State, c: Account, d: Account, amount: nat) returns (bonds: seq<Bond>)
    requires Inv(cfg, s) && s.candidates == t.candidates && BondOk(cfg, s, Row(c, amount))
    ensures bonds == Put(if d in s.delegators then s.delegators[d].delegations else [], c, amount)
    ensures bonds != [] && Ascending(bonds) && forall i :: 0 <= i < |bonds| ==> BondOk(cfg, t, bonds[i])
    ensures forall k :: Lookup(bonds, k) == if k == c then Some(amount) else Bonded(s, d, k)
    ensures Sum(bonds) == (if d in s.delegators then s.delegators[d].total else 0) - Bonded(s, d, c).GetOr(0) + amount
    ensures PendingOver(s.requests, bonds, d) == (if d in s.delegators then s.delegators[d].lessTotal else 0)
                                               + if Bonded(s, d, c).Some? then 0 else PendingAmount(s.requests, c, d)
  {
    var before: seq<Bond> := if d in s.delegators then s.delegators[d].delegations else [];
    if d in s.delegators { assert DelegatorOk(cfg, s, d); }
    bonds := Put(before, c, amount);
    PutLaws(before, c, amount);
    SumPut(before, c, amount);
    PendingPut(s.requests, before, d, c, amount);
    forall k | Lookup(bonds, k).Some? ensures BondOk(cfg, t, Row(k, Lookup(bonds, k).value)) {
      if k != c { BondedIsOk(cfg, s, d, k); }
    }
    RowsOk(cfg, t, bonds);
  }

  /** The bond, the total and the cached sum of one delegator go down by the amount of one request. */
  ghost predicate Lowered(s: State, t: State, c: Account, d: Account, amount: nat)
    requires d in s.delegators && Bonded(s, d, c).Some? && amount <= Bonded(s, d, c).value
  {
    var left: nat := Bonded(s, d, c).value - amount;
    && t.candidates == s.candidates && t.funds == s.funds
    && t.requests == s.requests[c := WithoutRequest(RequestsFor(s.requests, c), d)]
    && t.delegators == s.delegators[d := LessPending(s.delegators[d], amount).(
         delegations := Put(s.delegators[d].delegations, c, left),
         total := SaturatingSub(s.delegators[d].total, amount))]
  }

  lemma DecreaseLowers(cfg: Config, s: State, c: Account, d: Account)
    requires Inv(cfg, s) && Execute(cfg, s, c, d).1.Ok? && Requested(s, c, d).value.action.Decrease?
    ensures var amount := Requested(s, c, d).value.action.amount;
            && Bonded(s, d, c).Some? && amount < Bonded(s, d, c).value
            && amount <= s.delegators[d].lessTotal <= s.delegators[d].total
            && BondOk(cfg, s, Row(c, Bonded(s, d, c).value - amount))
            && Lowered(s, Execute(cfg, s, c, d).0, c, d, amount)
  {
    assert PairOk(cfg, s, c, d);
    PendingFits(cfg, s, d, c);
    BondedIsOk(cfg, s, d, c);
  }

  lemma LoweredDelegator(cfg: Config, s: State, t: State, c: Account, d: Account, amount: nat)
    requires Inv(cfg, s) && Bonded(s, d, c).Some? && amount == PendingAmount(s.requests, c, d) < Bonded(s, d, c).value
    requires amount <= s.delegators[d].lessTotal <= s.delegators[d].total
    requires BondOk(cfg, s, Row(c, Bonded(s, d, c).value - amount)) && Lowered(s, t, c, d, amount)
    ensures DelegatorOk(cfg, t, d) && Bonded(t, d, c).Some?
    ensures forall k :: k != c ==> Bonded(s, d, k) == Bonded(t, d, k)
  {
    assert DelegatorOk(cfg, s, d);
    var bonds := PutBond(cfg, s, t, c, d, Bonded(s, d, c).value - amount);
    DecreasePending(cfg, s, t, bonds, c, d);
    LoweredRecord(cfg, s, t, c, d, amount, bonds);
  }

  lemma LoweredRecord(cfg: Config, s: State, t: State, c: Account, d: Account, amount: nat, bonds: seq<Bond>)
    requires d in s.delegators && DelegatorOk(cfg, s, d) && Bonded(s, d, c).Some? && amount < Bonded(s, d, c).value
    requires amount <= s.delegators[d].lessTotal <= s.delegators[d].total && Lowered(s, t, c, d, amount)
    requires bonds == Put(s.delegators[d].delegations, c, Bonded(s, d, c).value - amount)
    requires bonds != [] && Ascending(bonds) && forall i :: 0 <= i < |bonds| ==> BondOk(cfg, t, bonds[i])
    requires forall k :: Lookup(bonds, k) == if k == c then Some(Bonded(s, d, c).value - amount) else Bonded(s, d, k)
    requires Sum(bonds) == s.delegators[d].total - amount
    requires PendingOver(t.requests, bonds, d) == s.delegators[d].lessTotal - amount
    ensures DelegatorOk(cfg, t, d) && Bonded(t, d, c).Some?
    ensures forall k :: k != c ==> Bonded(s, d, k) == Bonded(t, d, k)
  {
    assert t.delegators[d].delegations == bonds;
    assert forall k :: Bonded(t, d, k) == Lookup(bonds, k);
  }

  lemma DecreaseDelegator(cfg: Config, s: State, c: Account, d: Account)
    requires Inv(cfg, s) && Execute(cfg, s, c, d).1.Ok? && Requested(s, c, d).value.action.Decrease?
    ensures var t := Execute(cfg, s, c, d).0;
            d in t.delegators && DelegatorOk(cfg, t, d) && Bonded(t, d, c).Some?
              && forall k :: k != c ==> Bonded(s, d, k) == Bonded(t, d, k)
  {
    DecreaseLowers(cfg, s, c, d);
    LoweredDelegator(cfg, s, Execute(cfg, s, c, d).0, c, d, Requested(s, c, d).value.action.amount);
  }

  /** Removing the request of one pair takes its amount from the sum over these bonds. */
  lemma DecreasePending(cfg: Config, s: State, t: State, bonds: seq<Bond>, c: Account, d: Account)
    requires Inv(cfg, s) && Ascending(bonds) && Lookup(bonds, c).Some?
    requires t.requests == s.requests[c := WithoutRequest(RequestsFor(s.requests, c), d)]
    ensures PendingOver(t.requests, bonds, d) == PendingOver(s.requests, bonds, d) - PendingAmount(s.requests, c, d)
  {
    assert OnePerDelegator(RequestsFor(s.requests, c));
    WithoutLaws(RequestsFor(s.requests, c), d);
    PendingChange(s.requests, t.requests, bonds, d, c);
  }

  lemma DecreaseKeeps(cfg: Config, s: State, c: Account, d: Account)
    requires Inv(cfg, s) && Execute(cfg, s, c, d).1.Ok? && Requested(s, c, d).value.action.Decrease?
    ensures Inv(cfg, Execute(cfg, s, c, d).0)
  {
    DecreaseDelegator(cfg, s, c, d);
    assert OnePerDelegator(RequestsFor(s.requests, c));
    WithoutLaws(RequestsFor(s.requests, c), d);
    assert AutoOk(s, c);
    assert PairOk(cfg, s, c, d);
    PairStep(cfg, s, Execute(cfg, s, c, d).0, c, d);
  }

  lemma ExecuteKeeps(cfg: Config, s: State, c: Account, d: Account)
    requires Inv(cfg, s)
    ensures Inv(cfg, Execute(cfg, s, c, d).0)
  {
    if Execute(cfg, s, c, d).1.Ok? {
      if Requested(s, c, d).value.action.Revoke? {
        RevokeEnds(cfg, s, c, d);
        EndedKeeps(cfg, s, Execute(cfg, s, c, d).0, c, d);
      } else {
        DecreaseKeeps(cfg, s, c, d);
      }
    }
  }

  /** What is locked beyond the pending amounts is the same before and after an execution. */
  lemma ExecutionKeepsNetTotal(cfg: Config, s: State, c: Account, d: Account)
    requires Inv(cfg, s) && Execute(cfg, s, c, d).1.Ok?
    ensures var t := Execute(cfg, s, c, d).0;
            var before := s.delegators[d].total - s.delegators[d].lessTotal;
            if d in t.delegators then t.delegators[d].total - t.delegators[d].lessTotal == before else before == 0
  {
    assert PairOk(cfg, s, c, d);
    assert DelegatorOk(cfg, s, d);
    PendingFits(cfg, s, d, c);
    BondedIsOk(cfg, s, d, c);
    var bonds := s.delegators[d].delegations;
    if |bonds| == 1 {
      var i := LookupFound(bonds, c);
      assert bonds[1..] == [];
      assert PendingOver(s.requests, bonds[1..], d) == 0 && Sum(bonds[1..]) == 0;
    }
  }

  // ---------- Kicks and departures ----------

  lemma EndDelegationEnds(cfg: Config, s: State, c: Account, d: Account)
    requires Inv(cfg, s) && Bonded(s, d, c).Some?
    ensures s.delegators[d].lessTotal >= PendingAmount(s.requests, c, d)
    ensures s.delegators[d].total >= Bonded(s, d, c).value
    ensures Ended(s, Kick(s, c, d), c, d)
    ensures ReturnStake(s, c, d) == Kick(s, c, d)
  {
    assert DelegatorOk(cfg, s, d);
    PendingFits(cfg, s, d, c);
    BondedIsOk(cfg, s, d, c);
    var bonds := s.delegators[d].delegations;
    assert OnePerDelegator(RequestsFor(s.requests, c));
    NothingToRemove(RequestsFor(s.requests, c), d);
    // Nothing remains bonded exactly when the last delegation goes: every bond is positive.
    DropLaws(bonds, c);
    SumDrop(bonds, c);
    if |bonds| != 1 {
      var other := Drop(bonds, c)[0];
      assert other in bonds;
      assert BondOk(cfg, s, other);
      assert Sum(Drop(bonds, c)) >= other.value;
    }
  }

  lemma {:induction false} NothingToRemove(list: seq<ScheduledRequest>, d: Account)
    ensures RequestOf(list, d).None? ==> WithoutRequest(list, d) == list
  {
    if list != [] { NothingToRemove(list[1..], d); }
  }

  lemma KickKeeps(cfg: Config, s: State, c: Account, d: Account)
    requires Inv(cfg, s) && Bonded(s, d, c).Some?
    ensures Inv(cfg, Kick(s, c, d))
  {
    EndDelegationEnds(cfg, s, c, d);
    EndedKeeps(cfg, s, Kick(s, c, d), c, d);
  }

  // ---------- Delegating and bonding more ----------

  /** A delegator whose bond at `c` was set to `amount`, with the sums moved along. */
  ghost predicate BondSet(s: State, t: State, c: Account, d: Account, amount: nat) {
    && t.requests == s.requests && t.candidates == s.candidates && t.funds == s.funds
    && d in t.delegators && t.delegators == s.delegators[d := t.delegators[d]]
    && Bonded(s, d, c).GetOr(0) <= amount
    && (d in s.delegators ==>
         && s.delegators[d].total >= Bonded(s, d, c).GetOr(0)
         && t.delegators[d] == s.delegators[d].(
              delegations := Put(s.delegators[d].delegations, c, amount),
              total := s.delegators[d].total - Bonded(s, d, c).GetOr(0) + amount))
    && (d !in s.delegators ==> t.delegators[d] == Delegator(d, [Row(c, amount)], amount, 0))
    && t.delegators[d].total <= Amount(s.funds, d) <= U128_MAX
  }

  lemma BondSetDelegator(cfg: Config, s: State, t: State, c: Account, d: Account, amount: nat)
    requires Inv(cfg, s) && BondSet(s, t, c, d, amount) && BondOk(cfg, s, Row(c, amount))
    ensures DelegatorOk(cfg, t, d) && forall k :: Bonded(t, d, k) == if k == c then Some(amount) else Bonded(s, d, k)
  {
    assert PairOk(cfg, s, c, d);
    if d in s.delegators { assert DelegatorOk(cfg, s, d); }
    var bonds := PutBond(cfg, s, t, c, d, amount);
    assert t.delegators[d].delegations == bonds;
  }

  lemma BondSetKeeps(cfg: Config, s: State, t: State, c: Account, d: Account, amount: nat)
    requires Inv(cfg, s) && BondSet(s, t, c, d, amount) && BondOk(cfg, s, Row(c, amount))
    requires Requested(s, c, d).Some? ==> Requested(s, c, d).value.action.Decrease?
    requires (forall k :: k != c ==> AutoCompoundFor(s.autoCompounds, k) == AutoCompoundFor(t.autoCompounds, k))
    requires Ascending(AutoCompoundFor(t.autoCompounds, c))
    requires forall e :: e != d ==>
               Lookup(AutoCompoundFor(s.autoCompounds, c), e) == Lookup(AutoCompoundFor(t.autoCompounds, c), e)
    requires Lookup(AutoCompoundFor(t.autoCompounds, c), d).Some? ==>
               Lookup(AutoCompoundFor(t.autoCompounds, c), d).value != 0
    ensures Inv(cfg, t)
  {
    BondSetDelegator(cfg, s, t, c, d, amount);
    assert PairOk(cfg, s, c, d);
    assert OnePerDelegator(RequestsFor(s.requests, c));
    PairStep(cfg, s, t, c, d);
  }

  lemma BondMoreKeeps(cfg: Config, s: State, c: Account, d: Account, more: nat)
    requires Inv(cfg, s)
    ensures Inv(cfg, BondMore(s, c, d, more).0)
  {
    var (t, r) := BondMore(s, c, d, more);
    if r.Ok? {
      assert DelegatorOk(cfg, s, d);
      BondedIsOk(cfg, s, d, c);
      assert AutoOk(s, c);
      var list := RequestsFor(s.requests, c);
      RequestIn(list, d);
      BondSetKeeps(cfg, s, t, c, d, Bonded(s, d, c).value + more);
    }
  }

  /** A kick touches no record but the kicked delegator's. */
  lemma RoomIsForOthers(cfg: Config, s: State, c: Account, d: Account, admission: Admission)
    requires Inv(cfg, s) && Bonded(s, d, c).None?
    requires admission.AdmittedKicking? ==> Bonded(s, admission.lowest, c).Some?
    ensures var u := MadeRoom(s, c, admission);
            && Inv(cfg, u) && u.funds == s.funds && u.candidates == s.candidates && u.round == s.round
            && (d in u.delegators <==> d in s.delegators)
            && (d in s.delegators ==> u.delegators[d] == s.delegators[d])
  {
    if admission.AdmittedKicking? {
      KickKeeps(cfg, s, c, admission.lowest);
      EndDelegationEnds(cfg, s, c, admission.lowest);
    }
  }

  lemma SettleKeeps(cfg: Config, s: State, c: Account, d: Account, amount: nat, percent: nat)
    requires Inv(cfg, s) && Amount(s.funds, d) <= U128_MAX
    requires Bonded(s, d, c).None? && c in s.candidates
    requires cfg.minDelegation <= amount <= StakableBalance(s, d)
    ensures Inv(cfg, Settle(cfg, s, c, DelegatorAfterBond(s, c, d, amount), d, percent).0)
  {
    var (t, r) := Settle(cfg, s, c, DelegatorAfterBond(s, c, d, amount), d, percent);
    if r.Ok? {
      if d in s.delegators { assert DelegatorOk(cfg, s, d); }
      assert PairOk(cfg, s, c, d);
      assert AutoOk(s, c);
      PutLaws(AutoCompoundFor(s.autoCompounds, c), d, percent);
      BondSetKeeps(cfg, s, t, c, d, amount);
    }
  }

  lemma DelegateKeeps(cfg: Config, s: State, c: Account, d: Account, amount: nat, percent: nat, hints: Hints,
                      side: CandidateSide)
    requires Inv(cfg, s) && Amount(s.funds, d) <= U128_MAX
    requires side.admission.AdmittedKicking? ==> Bonded(s, side.admission.lowest, c).Some?
    ensures Inv(cfg, Delegate(cfg, s, c, d, amount, percent, hints, side).0)
    ensures Delegate(cfg, s, c, d, amount, percent, hints, side).0.funds == s.funds
  {
    if DelegateRefusal(cfg, s, c, d, amount, percent, hints, side.delegationCount).None? && !side.admission.Refused? {
      RoomIsForOthers(cfg, s, c, d, side.admission);
      SettleKeeps(cfg, MadeRoom(s, c, side.admission), c, d, amount, percent);
    }
  }

  lemma SetAutoCompoundKeeps(cfg: Config, s: State, c: Account, d: Account, value: nat, h0: nat, h1: nat)
    requires Inv(cfg, s)
    ensures Inv(cfg, SetAutoCompound(cfg, s, c, d, value, h0, h1).0)
  {
    var (t, r) := SetAutoCompound(cfg, s, c, d, value, h0, h1);
    if r.Ok? {
      assert AutoOk(s, c);
      assert PairOk(cfg, s, c, d);
      assert DelegatorOk(cfg, s, d);
      assert OnePerDelegator(RequestsFor(s.requests, c));
      RemoveAutoLaws(s, c, d);
      PutLaws(AutoCompoundFor(s.autoCompounds, c), d, value);
      SameDelegator(cfg, s, t, d);
      PairStep(cfg, s, t, c, d);
    }
  }

  lemma SameDelegator(cfg: Config, s: State, t: State, d: Account)
    requires d in s.delegators && DelegatorOk(cfg, s, d) && t == s.(autoCompounds := t.autoCompounds)
    ensures DelegatorOk(cfg, t, d)
  {
  }
}
