/** The imperative code of `delegation_requests.rs` and `auto_compound.rs`: storage maps edited in
    place, search loops and bisection, proved against the functions of module `Staking`. */
module StakingPallet {
  import opened Integers
  import opened Xcm
  import opened Sequences
  import opened SortedRows
  import opened Staking

  /** What every binary search in the pallet relies on. */
  ghost predicate SortedStorage(s: State) {
    && (forall d :: d in s.delegators ==> Ascending(s.delegators[d].delegations))
    && (forall c :: c in s.autoCompounds ==> Ascending(s.autoCompounds[c]))
  }

  /** `iter().position(|req| req.delegator == delegator)`. */
  method Position(list: seq<ScheduledRequest>, delegator: Account) returns (index: Option<nat>)
    ensures match index
            case None => RequestOf(list, delegator).None?
            case Some(i) => && i < |list|
                            && RequestOf(list, delegator) == Some(list[i])
                            && WithoutRequest(list, delegator) == list[..i] + list[i + 1..]
  {
    for i := 0 to |list|
      invariant RequestOf(list, delegator) == RequestOf(list[i..], delegator)
      invariant WithoutRequest(list, delegator) == list[..i] + WithoutRequest(list[i..], delegator)
    {
      assert list[i..][1..] == list[i + 1..];
      if list[i].delegator == delegator {
        return Some(i);
      }
      Assoc(list[..i], [list[i]], WithoutRequest(list[i + 1..], delegator));
      assert list[..i] + [list[i]] == list[..i + 1];
    }
    return None;
  }

  /** `delegations.iter().find(|b| b.owner == collator).map(|b| b.amount)`. */
  method GetBondAmount(bonds: seq<Bond>, collator: Account) returns (amount: Option<nat>)
    ensures amount == Lookup(bonds, collator)
  {
    for i := 0 to |bonds|
      invariant Lookup(bonds, collator) == Lookup(bonds[i..], collator)
    {
      assert bonds[i..][1..] == bonds[i + 1..];
      if bonds[i].key == collator {
        return Some(bonds[i].value);
      }
    }
    return None;
  }

  /** Bonds before `i` are filtered; `amount` is set once the bond has been met. */
  ghost predicate Filtering(bonds: seq<Bond>, collator: Account, i: nat, kept: seq<Bond>, amount: Option<nat>)
    requires i <= |bonds|
  {
    match amount
    case None =>
      && Drop(bonds, collator) == kept + Drop(bonds[i..], collator)
      && Lookup(bonds, collator) == Lookup(bonds[i..], collator)
    case Some(_) =>
      && Drop(bonds, collator) == kept + bonds[i..] && Lookup(bonds, collator) == amount
      && forall j :: i <= j < |bonds| ==> bonds[j].key > collator
  }

  lemma FilterMatch(bonds: seq<Bond>, collator: Account, i: nat, kept: seq<Bond>)
    requires Ascending(bonds) && i < |bonds| && bonds[i].key == collator && Filtering(bonds, collator, i, kept, None)
    ensures Filtering(bonds, collator, i + 1, kept, Some(bonds[i].value))
  {
  }

  lemma FilterKeep(bonds: seq<Bond>, collator: Account, i: nat, kept: seq<Bond>, amount: Option<nat>)
    requires i < |bonds| && bonds[i].key != collator && Filtering(bonds, collator, i, kept, amount)
    ensures Filtering(bonds, collator, i + 1, kept + [bonds[i]], amount)
  {
  }

  /** The filtering loop of `Delegator::rm_delegation`. */
  method FilterBonds(bonds: seq<Bond>, collator: Account) returns (kept: seq<Bond>, amount: Option<nat>)
    requires Ascending(bonds)
    ensures kept == Drop(bonds, collator) && amount == Lookup(bonds, collator)
    ensures Ascending(kept)
  {
    kept, amount := [], None;
    for i := 0 to |bonds|
      invariant Filtering(bonds, collator, i, kept, amount)
    {
      if bonds[i].key == collator {
        FilterMatch(bonds, collator, i, kept);
        amount := Some(bonds[i].value);
      } else {
        FilterKeep(bonds, collator, i, kept, amount);
        kept := kept + [bonds[i]];
      }
    }
    DropLaws(bonds, collator);
  }

  /** The loop of `execute` and `increase_delegation` that finds a bond and rewrites its amount. */
  method SetBond(bonds: seq<Bond>, collator: Account, amount: nat) returns (changed: seq<Bond>)
    requires Ascending(bonds) && Lookup(bonds, collator).Some?
    ensures changed == Put(bonds, collator, amount) && Ascending(changed)
  {
    var i := 0;
    ghost var at := LookupFound(bonds, collator);
    while bonds[i].key != collator
      invariant 0 <= i <= at
      invariant forall j :: 0 <= j < i ==> bonds[j].key != collator
      decreases at - i
    {
      i := i + 1;
    }
    PutAt(bonds, collator, amount, true, i);
    PutLaws(bonds, collator, amount);
    changed := bonds[i := Row(collator, amount)];
    assert changed == bonds[..i] + [Row(collator, amount)] + bonds[i + 1..];
  }

  /** `Delegator::add_delegation`: insert into the ordered set, unless a bond with this owner is there. */
  method AddDelegation(state: Delegator, candidate: Account, amount: nat) returns (added: Option<Delegator>)
    requires Ascending(state.delegations)
    ensures added == if Lookup(state.delegations, candidate).Some? then None
                     else Some(state.(delegations := Put(state.delegations, candidate, amount),
                                      total := SaturatingAdd(state.total, amount, U128_MAX)))
    ensures added.Some? ==> Ascending(added.value.delegations)
  {
    var found, at := BinarySearch(state.delegations, candidate);
    DropAt(state.delegations, candidate, found, at);
    if found {
      return None;
    }
    PutAt(state.delegations, candidate, amount, found, at);
    PutLaws(state.delegations, candidate, amount);
    return Some(state.(
      delegations := state.delegations[..at] + [Row(candidate, amount)] + state.delegations[at..],
      total := SaturatingAdd(state.total, amount, U128_MAX)));
  }

  // ---------- Auto-compound settings of one candidate ----------

  class AutoCompoundDelegations {
    const bound: nat
    var rows: seq<Row<nat>>

    constructor (rows: seq<Row<nat>>, bound: nat)
      ensures this.rows == rows && this.bound == bound
    {
      this.rows, this.bound := rows, bound;
    }

    method GetForDelegator(delegator: Account) returns (value: Option<nat>)
      requires Ascending(rows)
      ensures value == Lookup(rows, delegator)
    {
      var found, at := BinarySearch(rows, delegator);
      DropAt(rows, delegator, found, at);
      return if found then Some(rows[at].value) else None;
    }

    method SetForDelegator(delegator: Account, value: nat) returns (r: Result<bool, Error>)
      requires Ascending(rows)
      modifies this
      ensures r == if Lookup(old(rows), delegator).Some? then Ok(Lookup(old(rows), delegator) != Some(value))
                   else if |old(rows)| >= bound then Err(ExceedMaxDelegationsPerDelegator) else Ok(true)
      ensures rows == if r.Ok? then Put(old(rows), delegator, value) else old(rows)
      ensures Ascending(rows)
    {
      var found, at := BinarySearch(rows, delegator);
      DropAt(rows, delegator, found, at);
      PutAt(rows, delegator, value, found, at);
      PutLaws(rows, delegator, value);
      if found {
        assert rows == rows[..at] + [rows[at]] + rows[at + 1..];
        if rows[at].value == value {
          assert rows[at] == Row(delegator, value);
          return Ok(false);
        }
        rows := rows[..at] + [Row(delegator, value)] + rows[at + 1..];
        return Ok(true);
      }
      if |rows| >= bound {
        return Err(ExceedMaxDelegationsPerDelegator);
      }
      rows := rows[..at] + [Row(delegator, value)] + rows[at..];
      return Ok(true);
    }

    method RemoveForDelegator(delegator: Account) returns (removed: bool)
      requires Ascending(rows)
      modifies this
      ensures removed <==> Lookup(old(rows), delegator).Some?
      ensures rows == Drop(old(rows), delegator)
      ensures Ascending(rows)
    {
      var found, at := BinarySearch(rows, delegator);
      DropAt(rows, delegator, found, at);
      DropLaws(rows, delegator);
      if found {
        rows := rows[..at] + rows[at + 1..];
      }
      return found;
    }
  }

  // ---------- The pallet ----------

  class Pallet {
    const cfg: Config
    var delegatorState: map<Account, Delegator>
    var scheduledRequests: Requests
    var autoCompounding: AutoCompounds
    var candidates: set<Account>
    var funds: map<Account, nat>
    var round: nat

    function Abs(): State
      reads this
    {
      State(delegatorState, scheduledRequests, autoCompounding, candidates, funds, round)
    }

    ghost predicate Valid()
      reads this
    {
      SortedStorage(Abs())
    }

    constructor (cfg: Config)
      ensures Valid() && this.cfg == cfg && Abs() == State(map[], map[], map[], {}, map[], 0)
    {
      this.cfg := cfg;
      delegatorState, scheduledRequests, autoCompounding := map[], map[], map[];
      candidates, funds, round := {}, map[], 0;
    }

    method DelegationScheduleRevoke(collator: Account, delegator: Account) returns (r: Outcome)
      requires Valid()
      modifies this
      ensures Valid()
      ensures (Abs(), r) == ScheduleRevoke(cfg, old(Abs()), collator, delegator)
    {
      if delegator !in delegatorState {
        return Err(DelegatorDNE);
      }
      var state := delegatorState[delegator];
      var requests := RequestsFor(scheduledRequests, collator);
      var existing := Position(requests, delegator);
      if existing.Some? {
        return Err(PendingDelegationRequestAlreadyExists);
      }
      var bonded := GetBondAmount(state.delegations, collator);
      if bonded.None? {
        return Err(DelegationDNE);
      }
      var when := SaturatingAdd(round, cfg.revokeDelay, U32_MAX);
      if |requests| >= cfg.maxDelegationsPerCandidate {
        return Err(ExceedMaxDelegationsPerDelegator);
      }
      requests := requests + [ScheduledRequest(delegator, when, Revoke(bonded.value))];
      state := state.(lessTotal := SaturatingAdd(state.lessTotal, bonded.value, U128_MAX));
      scheduledRequests := scheduledRequests[collator := requests];
      delegatorState := delegatorState[delegator := state];
      return Ok(());
    }

    method DelegationScheduleBondDecrease(collator: Account, delegator: Account, less: nat) returns (r: Outcome)
      requires Valid()
      modifies this
      ensures Valid()
      ensures (Abs(), r) == ScheduleDecrease(cfg, old(Abs()), collator, delegator, less)
    {
      if delegator !in delegatorState {
        return Err(DelegatorDNE);
      }
      var state := delegatorState[delegator];
      var requests := RequestsFor(scheduledRequests, collator);
      var existing := Position(requests, delegator);
      if existing.Some? {
        return Err(PendingDelegationRequestAlreadyExists);
      }
      var bonded := GetBondAmount(state.delegations, collator);
      if bonded.None? {
        return Err(DelegationDNE);
      }
      if bonded.value <= less {
        return Err(DelegatorBondBelowMin);
      }
      if bonded.value - less < cfg.minDelegation {
        return Err(DelegationBelowMin);
      }
      var netTotal := SaturatingSub(state.total, state.lessTotal);
      if less > SaturatingSub(netTotal, cfg.minDelegation) {
        return Err(DelegatorBondBelowMin);
      }
      var when := SaturatingAdd(round, cfg.bondLessDelay, U32_MAX);
      if |requests| >= cfg.maxDelegationsPerCandidate {
        return Err(ExceedMaxDelegationsPerDelegator);
      }
      requests := requests + [ScheduledRequest(delegator, when, Decrease(less))];
      state := state.(lessTotal := SaturatingAdd(state.lessTotal, less, U128_MAX));
      scheduledRequests := scheduledRequests[collator := requests];
      delegatorState := delegatorState[delegator := state];
      return Ok(());
    }

    method DelegationCancelRequest(collator: Account, delegator: Account) returns (r: Outcome)
      requires Valid()
      modifies this
      ensures Valid()
      ensures (Abs(), r) == CancelRequest(old(Abs()), collator, delegator)
    {
      if delegator !in delegatorState {
        return Err(DelegatorDNE);
      }
      var state := delegatorState[delegator];
      var requests := RequestsFor(scheduledRequests, collator);
      var index := Position(requests, delegator);
      if index.None? {
        return Err(PendingDelegationRequestDNE);
      }
      var amount := requests[index.value].action.amount;
      requests := requests[..index.value] + requests[index.value + 1..];
      state := state.(lessTotal := SaturatingSub(state.lessTotal, amount));
      scheduledRequests := scheduledRequests[collator := requests];
      delegatorState := delegatorState[delegator := state];
      return Ok(());
    }

    method RemoveAutoCompoundEntry(candidate: Account, delegator: Account)
      requires Valid()
      modifies this`autoCompounding
      ensures Valid()
      ensures autoCompounding == RemoveAutoCompound(old(autoCompounding), candidate, delegator)
    {
      var rows := AutoCompoundFor(autoCompounding, candidate);
      var state := new AutoCompoundDelegations(rows, cfg.maxDelegationsPerCandidate);
      var removed := state.RemoveForDelegator(delegator);
      if removed {
        autoCompounding := autoCompounding[candidate := state.rows];
      }
    }

    method DelegationExecuteScheduledRequest(collator: Account, delegator: Account) returns (r: Outcome)
      requires Valid()
      modifies this
      ensures Valid()
      ensures (Abs(), r) == Execute(cfg, old(Abs()), collator, delegator)
    {
      if delegator !in delegatorState {
        return Err(DelegatorDNE);
      }
      var requests := RequestsFor(scheduledRequests, collator);
      var index := Position(requests, delegator);
      if index.None? {
        return Err(PendingDelegationRequestDNE);
      }
      var request := requests[index.value];
      if request.whenExecutable > round {
        return Err(PendingDelegationRequestNotDueYet);
      }
      requests := requests[..index.value] + requests[index.value + 1..];
      match request.action
      case Revoke(amount) => r := this.RevokeNow(collator, delegator, amount, requests);
      case Decrease(amount) => r := this.DecreaseNow(collator, delegator, amount, requests);
    }

    method RevokeNow(collator: Account, delegator: Account, amount: nat, requests: seq<ScheduledRequest>)
      returns (r: Outcome)
      requires Valid() && delegator in delegatorState
      requires requests == WithoutRequest(RequestsFor(scheduledRequests, collator), delegator)
      modifies this
      ensures Valid()
      ensures (Abs(), r) == ExecuteRevoke(cfg, old(Abs()), collator, delegator, amount)
    {
      var state := delegatorState[delegator];
      var leaving := |state.delegations| == 1;
      if !leaving && SaturatingSub(state.total, cfg.minDelegation) < amount {
        return Err(DelegatorBondBelowMin);
      }
      state := state.(lessTotal := SaturatingSub(state.lessTotal, amount));
      var kept, bonded := FilterBonds(state.delegations, collator);
      if bonded.Some? {
        state := state.(delegations := kept, total := SaturatingSub(state.total, bonded.value));
      }
      var before := autoCompounding;
      RemoveAutoCompoundEntry(collator, delegator);
      if collator !in candidates {
        // The failed extrinsic is rolled back.
        autoCompounding := before;
        return Err(CandidateDNE);
      }
      scheduledRequests := scheduledRequests[collator := requests];
      delegatorState := if leaving then delegatorState - {delegator} else delegatorState[delegator := state];
      return Ok(());
    }

    method DecreaseNow(collator: Account, delegator: Account, amount: nat, requests: seq<ScheduledRequest>)
      returns (r: Outcome)
      requires Valid() && delegator in delegatorState
      requires requests == WithoutRequest(RequestsFor(scheduledRequests, collator), delegator)
      modifies this
      ensures Valid()
      ensures (Abs(), r) == ExecuteDecrease(cfg, old(Abs()), collator, delegator, amount)
    {
      var state := delegatorState[delegator];
      state := state.(lessTotal := SaturatingSub(state.lessTotal, amount));
      var bonded := GetBondAmount(state.delegations, collator);
      if bonded.None? {
        return Err(DelegationDNE);
      }
      if bonded.value <= amount {
        return Err(DelegationBelowMin);
      }
      var changed := SetBond(state.delegations, collator, bonded.value - amount);
      if collator !in candidates {
        return Err(CandidateDNE);
      }
      var newTotal := SaturatingSub(state.total, amount);
      if newTotal < cfg.minDelegation {
        return Err(DelegationBelowMin);
      }
      state := state.(delegations := changed, total := newTotal);
      scheduledRequests := scheduledRequests[collator := requests];
      delegatorState := delegatorState[delegator := state];
      return Ok(());
    }

    /** The checks up to the candidate, and the delegator's new record. */
    method PrepareDelegation(candidate: Account, delegator: Account, amount: nat, percent: nat, hints: Hints,
                             delegationCount: nat)
      returns (r: Result<Delegator, Error>)
      requires Valid()
      ensures r == match DelegateRefusal(cfg, Abs(), candidate, delegator, amount, percent, hints, delegationCount)
                   case Some(e) => Err(e)
                   case None => Ok(DelegatorAfterBond(Abs(), candidate, delegator, amount))
      ensures r.Ok? ==> Ascending(r.value.delegations)
    {
      if StakableBalance(Abs(), delegator) < amount {
        return Err(InsufficientBalance);
      }
      if amount < cfg.minDelegation {
        return Err(DelegationBelowMin);
      }
      var state: Delegator;
      if delegator in delegatorState {
        state := delegatorState[delegator];
        if hints.delegations < |state.delegations| {
          return Err(TooLowDelegationCountToDelegate);
        }
        if |state.delegations| >= cfg.maxDelegationsPerDelegator {
          return Err(ExceedMaxDelegationsPerDelegator);
        }
        var added := AddDelegation(state, candidate, amount);
        if added.None? {
          return Err(AlreadyDelegatedCandidate);
        }
        state := added.value;
      } else {
        if delegator in candidates {
          return Err(CandidateExists);
        }
        state := Delegator(delegator, [Row(candidate, amount)], amount, 0);
      }
      if candidate !in candidates {
        return Err(CandidateDNE);
      }
      if hints.candidateDelegations < delegationCount {
        return Err(TooLowCandidateDelegationCountToDelegate);
      }
      if percent != 0 && |AutoCompoundFor(autoCompounding, candidate)| > hints.autoCompounding {
        return Err(TooLowCandidateAutoCompoundingDelegationCountToDelegate);
      }
      return Ok(state);
    }

    method DelegateWithAutoCompound(candidate: Account, delegator: Account, amount: nat, percent: nat,
                                    hints: Hints, side: CandidateSide)
      returns (r: Outcome)
      requires Valid()
      modifies this
      ensures Valid()
      ensures (Abs(), r) == Delegate(cfg, old(Abs()), candidate, delegator, amount, percent, hints, side)
    {
      var prepared := PrepareDelegation(candidate, delegator, amount, percent, hints, side.delegationCount);
      if prepared.Err? {
        return Err(prepared.error);
      }
      // `add_delegation` of the candidate: it may refuse, or kick its lowest bottom delegation.
      if side.admission.Refused? {
        return Err(CannotDelegateLessThanOrEqualToLowestBottomWhenFull);
      }
      var records, requests, settings := delegatorState, scheduledRequests, autoCompounding;
      if side.admission.AdmittedKicking? && side.admission.lowest in delegatorState {
        KickLowestBottom(candidate, side.admission.lowest);
      }
      if percent != 0 {
        r := SetAutoCompoundEntry(candidate, delegator, percent);
        if r.Err? {
          // The storage layer of the call: the kick is undone as well.
          delegatorState, scheduledRequests, autoCompounding := records, requests, settings;
          return;
        }
      }
      delegatorState := delegatorState[delegator := prepared.value];
      return Ok(());
    }

    method SetAutoCompoundEntry(candidate: Account, delegator: Account, percent: nat) returns (r: Outcome)
      requires Valid()
      modifies this`autoCompounding
      ensures Valid()
      ensures var rows := AutoCompoundFor(old(autoCompounding), candidate);
              && r == (if Lookup(rows, delegator).None? && |rows| >= cfg.maxDelegationsPerCandidate
                       then Err(ExceedMaxDelegationsPerDelegator) else Ok(()))
              && autoCompounding == if r.Ok? then old(autoCompounding)[candidate := Put(rows, delegator, percent)]
                                    else old(autoCompounding)
    {
      var rows := AutoCompoundFor(autoCompounding, candidate);
      var auto := new AutoCompoundDelegations(rows, cfg.maxDelegationsPerCandidate);
      var updated := auto.SetForDelegator(delegator, percent);
      if updated.Err? {
        return Err(updated.error);
      }
      autoCompounding := autoCompounding[candidate := auto.rows];
      return Ok(());
    }

    method SetAutoCompoundFor(candidate: Account, delegator: Account, value: nat, autoHint: nat, delegationHint: nat)
      returns (r: Outcome)
      requires Valid()
      modifies this
      ensures Valid()
      ensures r == SetAutoCompound(cfg, old(Abs()), candidate, delegator, value, autoHint, delegationHint).1
      ensures Abs() == SetAutoCompound(cfg, old(Abs()), candidate, delegator, value, autoHint, delegationHint).0
    {
      if delegator !in delegatorState {
        return Err(DelegatorDNE);
      }
      if |delegatorState[delegator].delegations| > delegationHint {
        return Err(TooLowDelegationCountToAutoCompound);
      }
      var bonded := GetBondAmount(delegatorState[delegator].delegations, candidate);
      if bonded.None? {
        return Err(DelegationDNE);
      }
      var rows := AutoCompoundFor(autoCompounding, candidate);
      if |rows| > autoHint {
        return Err(TooLowCandidateAutoCompoundingDelegationCountToAutoCompound);
      }
      var auto := new AutoCompoundDelegations(rows, cfg.maxDelegationsPerCandidate);
      if value == 0 {
        var removed := auto.RemoveForDelegator(delegator);
        if removed {
          autoCompounding := autoCompounding[candidate := auto.rows];
        }
      } else {
        var updated := auto.SetForDelegator(delegator, value);
        if updated.Err? {
          return Err(updated.error);
        }
        if updated.value {
          autoCompounding := autoCompounding[candidate := auto.rows];
        } else {
          PutSame(rows, delegator, value);
        }
      }
      return Ok(());
    }

    method DelegationBondMore(delegator: Account, candidate: Account, more: nat) returns (r: Outcome)
      requires Valid()
      modifies this
      ensures Valid()
      ensures (Abs(), r) == BondMore(old(Abs()), candidate, delegator, more)
    {
      if delegator !in delegatorState {
        return Err(DelegatorDNE);
      }
      var requests := RequestsFor(scheduledRequests, candidate);
      for i := 0 to |requests|
        invariant forall j :: 0 <= j < i ==> !(requests[j].delegator == delegator && requests[j].action.Revoke?)
      {
        if requests[i].delegator == delegator && requests[i].action.Revoke? {
          return Err(PendingDelegationRevoke);
        }
      }
      var state := delegatorState[delegator];
      var bonded := GetBondAmount(state.delegations, candidate);
      if bonded.None? {
        return Err(DelegationDNE);
      }
      var changed := SetBond(state.delegations, candidate, SaturatingAdd(bonded.value, more, U128_MAX));
      if StakableBalance(Abs(), delegator) < more {
        return Err(InsufficientBalance);
      }
      if candidate !in candidates {
        return Err(CandidateDNE);
      }
      state := state.(delegations := changed, total := SaturatingAdd(state.total, more, U128_MAX));
      delegatorState := delegatorState[delegator := state];
      return Ok(());
    }

    /** `delegation_remove_request_with_state`: writes the list, hands the record back to the caller. */
    method DelegationRemoveRequestWithState(collator: Account, delegator: Account, state: Delegator)
      returns (updated: Delegator)
      requires Valid()
      modifies this`scheduledRequests
      ensures Valid()
      ensures (scheduledRequests, updated) == RemoveRequestWithState(old(Abs()), collator, delegator, state)
    {
      updated := state;
      var requests := RequestsFor(scheduledRequests, collator);
      var index := Position(requests, delegator);
      if index.Some? {
        var amount := requests[index.value].action.amount;
        updated := updated.(lessTotal := SaturatingSub(updated.lessTotal, amount));
        scheduledRequests := scheduledRequests[collator := requests[..index.value] + requests[index.value + 1..]];
      }
    }

    /** The part of `add_bottom_delegation` that drops the lowest bottom delegation. */
    method KickLowestBottom(candidate: Account, delegator: Account)
      requires Valid() && delegator in delegatorState
      modifies this
      ensures Valid()
      ensures Abs() == Kick(old(Abs()), candidate, delegator)
    {
      var state := delegatorState[delegator];
      var leaving := |state.delegations| == 1;
      var kept, bonded := FilterBonds(state.delegations, candidate);
      if bonded.Some? {
        state := state.(delegations := kept, total := SaturatingSub(state.total, bonded.value));
      }
      state := DelegationRemoveRequestWithState(candidate, delegator, state);
      RemoveAutoCompoundEntry(candidate, delegator);
      delegatorState := if leaving then delegatorState - {delegator} else delegatorState[delegator := state];
    }

    /** The closure `return_stake` of `execute_leave_candidates_inner`. */
    method ReturnOneStake(candidate: Account, delegator: Account)
      requires Valid() && delegator in delegatorState
      modifies this`delegatorState, this`scheduledRequests, this`autoCompounding
      ensures Valid()
      ensures Abs() == if Bonded(old(Abs()), delegator, candidate).None? then old(Abs())
                       else ReturnStake(old(Abs()), candidate, delegator)
    {
      var state := delegatorState[delegator];
      var kept, bonded := FilterBonds(state.delegations, candidate);
      if bonded.None? {
        return;
      }
      state := state.(delegations := kept, total := SaturatingSub(state.total, bonded.value));
      var leaving := state.total == 0;
      state := DelegationRemoveRequestWithState(candidate, delegator, state);
      RemoveAutoCompoundEntry(candidate, delegator);
      delegatorState := if leaving then delegatorState - {delegator} else delegatorState[delegator := state];
    }

    method ExecuteLeaveCandidates(candidate: Account, leaving: Option<nat>, owners: seq<Account>) returns (r: Outcome)
      requires Valid()
      modifies this
      ensures Valid()
      ensures (Abs(), r) == ExecuteLeave(old(Abs()), candidate, leaving, owners)
    {
      if candidate !in candidates {
        return Err(CandidateDNE);
      }
      if leaving.None? {
        return Err(CandidateNotLeaving);
      }
      if round < leaving.value {
        return Err(CandidateCannotLeaveYet);
      }
      ReturnStakes(candidate, owners);
      candidates := candidates - {candidate};
      scheduledRequests := scheduledRequests - {candidate};
      autoCompounding := autoCompounding - {candidate};
      return Ok(());
    }

    /** The loops over the top delegations and the bottom ones. */
    method ReturnStakes(candidate: Account, owners: seq<Account>)
      requires Valid()
      modifies this`delegatorState, this`scheduledRequests, this`autoCompounding
      ensures Valid()
      ensures Abs() == ReturnAll(old(Abs()), candidate, owners)
    {
      for i := 0 to |owners|
        invariant Valid()
        invariant ReturnAll(old(Abs()), candidate, owners) == ReturnAll(Abs(), candidate, owners[i..])
      {
        assert owners[i..][0] == owners[i] && owners[i..][1..] == owners[i + 1..];
        if owners[i] in delegatorState {
          ReturnOneStake(candidate, owners[i]);
        }
      }
      assert owners[|owners|..] == [];
    }
  }

  lemma {:induction false} PutSame(rows: seq<Row<nat>>, key: nat, value: nat)
    requires Ascending(rows) && Lookup(rows, key) == Some(value)
    ensures Put(rows, key, value) == rows
  {
    PutLaws(rows, key, value);
    forall k ensures Lookup(Put(rows, key, value), k) == Lookup(rows, k) {}
    Canonical(Put(rows, key, value), rows);
  }
}
