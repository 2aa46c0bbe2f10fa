/** When each staking call succeeds, and all it changes, in terms of lookups only. */
module StakingEffects {
  import opened Integers
  import opened Xcm
  import opened SortedRows
  import opened Staking
  import opened StakingInvariant
  import opened StakingPreservation
  import opened StakingRuns

  // ---------- When calls succeed ----------

  /** Under the invariant a request can be scheduled exactly when there is a bond, no request yet, room in the
      list, and for a decrease when the minimum stays bonded: the check on the net total adds nothing. */
  lemma SchedulingSucceedsExactly(cfg: Config, s: State, c: Account, d: Account, less: nat)
    requires Inv(cfg, s)
    ensures var open := Bonded(s, d, c).Some? && Requested(s, c, d).None?
                        && |RequestsFor(s.requests, c)| < cfg.maxDelegationsPerCandidate;
            && (ScheduleRevoke(cfg, s, c, d).1.Ok? <==> open)
            && (ScheduleDecrease(cfg, s, c, d, less).1.Ok? <==>
                  open && less + cfg.minDelegation <= Bonded(s, d, c).value)
  {
    if Bonded(s, d, c).Some? && Requested(s, c, d).None? {
      NetTotalCheckIsRedundant(cfg, s, c, d, less);
    }
  }

  /** A request can be cancelled exactly when it exists, and executed exactly when it is due as well. */
  lemma ExecutionSucceedsExactly(cfg: Config, s: State, c: Account, d: Account)
    requires Inv(cfg, s)
    ensures CancelRequest(s, c, d).1.Ok? <==> Requested(s, c, d).Some?
    ensures Execute(cfg, s, c, d).1.Ok?
       <==> Requested(s, c, d).Some? && Requested(s, c, d).value.whenExecutable <= s.round
  {
    assert PairOk(cfg, s, c, d);
    if Requested(s, c, d).Some? && Requested(s, c, d).value.whenExecutable <= s.round {
      DueRequestExecutes(cfg, s, c, d);
    }
  }

  lemma {:induction false} RevokeIsTheRequest(list: seq<ScheduledRequest>, d: Account)
    requires OnePerDelegator(list)
    ensures (exists i :: 0 <= i < |list| && list[i].delegator == d && list[i].action.Revoke?)
       <==> (RequestOf(list, d).Some? && RequestOf(list, d).value.action.Revoke?)
  {
    RequestIn(list, d);
    if RequestOf(list, d).Some? {
      var r := RequestOf(list, d).value;
      var i :| 0 <= i < |list| && list[i] == r;
    } else {
      forall i | 0 <= i < |list| ensures list[i].delegator != d { RequestAbsent(list, d, i); }
    }
  }

  /** All that a delegator has bonded. */
  function AllBonded(s: State, d: Account): nat {
    if d in s.delegators then Sum(s.delegators[d].delegations) else 0
  }

  lemma StakableIsUnbonded(cfg: Config, s: State, d: Account, amount: nat)
    requires Inv(cfg, s)
    ensures amount <= StakableBalance(s, d) <==> AllBonded(s, d) + amount <= Amount(s.funds, d)
  {
    if d in s.delegators {
      assert DelegatorOk(cfg, s, d);
    }
  }

  /** A bond can be raised exactly when it exists, is not being revoked, and the funds cover all bonds and the
      amount. */
  lemma BondMoreSucceedsExactly(cfg: Config, s: State, c: Account, d: Account, more: nat)
    requires Inv(cfg, s)
    ensures BondMore(s, c, d, more).1.Ok? <==>
      && Bonded(s, d, c).Some?
      && !(Requested(s, c, d).Some? && Requested(s, c, d).value.action.Revoke?)
      && AllBonded(s, d) + more <= Amount(s.funds, d)
  {
    StakableIsUnbonded(cfg, s, d, more);
    assert OnePerDelegator(RequestsFor(s.requests, c));
    RevokeIsTheRequest(RequestsFor(s.requests, c), d);
    if Bonded(s, d, c).Some? {
      BondedIsOk(cfg, s, d, c);
    }
  }

  /** A setting can be changed exactly for a delegation, with sufficient counts, and for a new non-zero one while
      the list has room. */
  lemma SetAutoCompoundSucceedsExactly(cfg: Config, s: State, c: Account, d: Account, p: nat, autoHint: nat,
                                       delegationHint: nat)
    requires Inv(cfg, s)
    ensures var settings := |AutoCompoundFor(s.autoCompounds, c)|;
            SetAutoCompound(cfg, s, c, d, p, autoHint, delegationHint).1.Ok? <==>
              && Bonded(s, d, c).Some? && |s.delegators[d].delegations| <= delegationHint && settings <= autoHint
              && (p == 0 || AutoCompound(s, c, d) != 0 || settings < cfg.maxDelegationsPerCandidate)
  {
    SettingsAreNotZero(cfg, s, c, d);
  }

  lemma SettingsAreNotZero(cfg: Config, s: State, c: Account, d: Account)
    requires Inv(cfg, s)
    ensures AutoCompound(s, c, d) != 0 <==> Lookup(AutoCompoundFor(s.autoCompounds, c), d).Some?
    ensures Bonded(s, d, c).None? ==> AutoCompound(s, c, d) == 0
  {
    assert AutoOk(s, c);
  }

  /** The settings of a candidate once it has made room: one less when the kicked delegation has one. */
  function SettingsLeft(s: State, c: Account, admission: Admission): int {
    |AutoCompoundFor(s.autoCompounds, c)|
    - if admission.AdmittedKicking? && AutoCompound(s, c, admission.lowest) != 0 then 1 else 0
  }

  /** In any state, a new record is stored with its setting exactly when a new non-zero setting has room. */
  lemma SettleSucceedsExactly(cfg: Config, s: State, c: Account, record: Delegator, d: Account, p: nat)
    ensures var rows := AutoCompoundFor(s.autoCompounds, c);
            Settle(cfg, s, c, record, d, p).1.Ok? <==>
              p == 0 || Lookup(rows, d).Some? || |rows| < cfg.maxDelegationsPerCandidate
  {
  }

  lemma RoomLeavesSettings(cfg: Config, s: State, c: Account, d: Account, admission: Admission)
    requires Inv(cfg, s) && Bonded(s, d, c).None?
    requires admission.AdmittedKicking? ==> Bonded(s, admission.lowest, c).Some?
    ensures var rows := AutoCompoundFor(MadeRoom(s, c, admission).autoCompounds, c);
            |rows| == SettingsLeft(s, c, admission) && Lookup(rows, d).None?
  {
    SettingsAreNotZero(cfg, s, c, d);
    assert AutoOk(s, c);
    if admission.AdmittedKicking? {
      SettingsAreNotZero(cfg, s, c, admission.lowest);
      DropLaws(AutoCompoundFor(s.autoCompounds, c), admission.lowest);
    }
  }

  /** What the delegator has to bring for a new delegation. */
  ghost predicate MayDelegate(cfg: Config, s: State, c: Account, d: Account, amount: nat, delegationHint: nat) {
    && AllBonded(s, d) + amount <= Amount(s.funds, d) && cfg.minDelegation <= amount && Bonded(s, d, c).None?
    && (if d in s.delegators then |s.delegators[d].delegations| < cfg.maxDelegationsPerDelegator
                                  && |s.delegators[d].delegations| <= delegationHint
        else d !in s.candidates)
  }

  lemma NoRefusalExactly(cfg: Config, s: State, c: Account, d: Account, amount: nat, p: nat, hints: Hints, count: nat)
    requires Inv(cfg, s)
    ensures DelegateRefusal(cfg, s, c, d, amount, p, hints, count).None? <==>
      && MayDelegate(cfg, s, c, d, amount, hints.delegations)
      && c in s.candidates && count <= hints.candidateDelegations
      && (p == 0 || |AutoCompoundFor(s.autoCompounds, c)| <= hints.autoCompounding)
  {
    StakableIsUnbonded(cfg, s, d, amount);
  }

  /** A delegation succeeds exactly when the delegator may make it, the candidate exists, its counts suffice and
      it does not refuse, and a non-zero setting fits once room is made. */
  lemma DelegateSucceedsExactly(cfg: Config, s: State, c: Account, d: Account, amount: nat, p: nat, hints: Hints,
                                side: CandidateSide)
    requires Inv(cfg, s)
    requires side.admission.AdmittedKicking? ==> Bonded(s, side.admission.lowest, c).Some?
    ensures Delegate(cfg, s, c, d, amount, p, hints, side).1.Ok? <==>
      && MayDelegate(cfg, s, c, d, amount, hints.delegations)
      && c in s.candidates && side.delegationCount <= hints.candidateDelegations && !side.admission.Refused?
      && (p == 0 || (&& |AutoCompoundFor(s.autoCompounds, c)| <= hints.autoCompounding
                     && SettingsLeft(s, c, side.admission) < cfg.maxDelegationsPerCandidate))
  {
    NoRefusalExactly(cfg, s, c, d, amount, p, hints, side.delegationCount);
    if Bonded(s, d, c).None? {
      RoomLeavesSettings(cfg, s, c, d, side.admission);
      var room := MadeRoom(s, c, side.admission);
      SettleSucceedsExactly(cfg, room, c, DelegatorAfterBond(s, c, d, amount), d, p);
    }
  }

  /** A candidate can leave exactly when it exists, is leaving, and its round has come. */
  lemma LeavingSucceedsExactly(s: State, c: Account, leaving: Option<nat>, owners: seq<Account>)
    ensures var (t, r) := ExecuteLeave(s, c, leaving, owners);
            && (r == Err(CandidateDNE) <==> c !in s.candidates)
            && (r == Err(CandidateNotLeaving) <==> c in s.candidates && leaving.None?)
            && (r == Err(CandidateCannotLeaveYet) <==> c in s.candidates && leaving.Some? && s.round < leaving.value)
            && (r == Ok(()) <==> c in s.candidates && leaving.Some? && leaving.value <= s.round)
            && (r.Err? ==> t == s)
  {
  }

  // ---------- In any state, without the invariant ----------

  /** A decrease also has to leave the minimum of what is bonded and not pending. */
  lemma DecreaseInAnyState(cfg: Config, s: State, c: Account, d: Account, less: nat)
    ensures ScheduleDecrease(cfg, s, c, d, less).1.Ok? <==>
      && Bonded(s, d, c).Some? && Requested(s, c, d).None?
      && |RequestsFor(s.requests, c)| < cfg.maxDelegationsPerCandidate
      && less < Bonded(s, d, c).value && less + cfg.minDelegation <= Bonded(s, d, c).value
      && (less == 0 || less + cfg.minDelegation + s.delegators[d].lessTotal <= s.delegators[d].total)
  {
  }

  /** A due request executes if the candidate exists and the delegator keeps the minimum in all, or leaves. */
  ghost predicate Executable(cfg: Config, s: State, c: Account, d: Account, action: DelegationAction)
    requires d in s.delegators
  {
    var (total, amount) := (s.delegators[d].total, action.amount);
    && c in s.candidates
    && match action
       case Revoke(_) => |s.delegators[d].delegations| == 1 || amount == 0 || amount + cfg.minDelegation <= total
       case Decrease(_) =>
         && Bonded(s, d, c).Some? && amount < Bonded(s, d, c).value
         && (cfg.minDelegation == 0 || amount + cfg.minDelegation <= total)
  }

  lemma ExecutionInAnyState(cfg: Config, s: State, c: Account, d: Account)
    ensures Execute(cfg, s, c, d).1.Ok? <==>
      && d in s.delegators && Requested(s, c, d).Some? && Requested(s, c, d).value.whenExecutable <= s.round
      && Executable(cfg, s, c, d, Requested(s, c, d).value.action)
  {
  }

  lemma BondMoreInAnyState(s: State, c: Account, d: Account, more: nat)
    ensures BondMore(s, c, d, more).1.Ok? <==>
      && Bonded(s, d, c).Some? && c in s.candidates && !RevokeRequested(s, c, d)
      && (more == 0 || s.delegators[d].total + more <= Amount(s.funds, d))
  {
  }

  // ---------- Why calls fail ----------

  /** What scheduling refuses whatever the action: no delegator, a request already, no bond, in this order. */
  ghost predicate SchedulingObstacles(s: State, c: Account, d: Account, r: Outcome) {
    && (r == Err(DelegatorDNE) <==> d !in s.delegators)
    && (r == Err(PendingDelegationRequestAlreadyExists) <==> Requested(s, c, d).Some?)
    && (r == Err(DelegationDNE) <==> d in s.delegators && Requested(s, c, d).None? && Bonded(s, d, c).None?)
  }

  /** Every refusal to schedule a revocation names its obstacle; the last one is a full list. */
  lemma RevokeRefusals(cfg: Config, s: State, c: Account, d: Account)
    requires Inv(cfg, s)
    ensures var (t, r) := ScheduleRevoke(cfg, s, c, d);
            var full := |RequestsFor(s.requests, c)| >= cfg.maxDelegationsPerCandidate;
            && (r.Err? ==> t == s) && SchedulingObstacles(s, c, d, r)
            && (Bonded(s, d, c).Some? && Requested(s, c, d).None? ==>
                  (r == Err(ExceedMaxDelegationsPerDelegator) <==> full))
  {
    assert PairOk(cfg, s, c, d);
  }

  /** Likewise for a decrease, which must also leave the minimum bonded. */
  lemma DecreaseRefusals(cfg: Config, s: State, c: Account, d: Account, less: nat)
    requires Inv(cfg, s)
    ensures var (t, r) := ScheduleDecrease(cfg, s, c, d, less);
            var full := |RequestsFor(s.requests, c)| >= cfg.maxDelegationsPerCandidate;
            && (r.Err? ==> t == s) && SchedulingObstacles(s, c, d, r)
            && (Bonded(s, d, c).Some? && Requested(s, c, d).None? ==>
                  var bond := Bonded(s, d, c).value;
                  && (r == Err(DelegatorBondBelowMin) <==> bond <= less)
                  && (r == Err(DelegationBelowMin) <==> less < bond < less + cfg.minDelegation)
                  && (r == Err(ExceedMaxDelegationsPerDelegator) <==> less + cfg.minDelegation <= bond && full))
  {
    assert PairOk(cfg, s, c, d);
    if Bonded(s, d, c).Some? && Requested(s, c, d).None? {
      NetTotalCheckIsRedundant(cfg, s, c, d, less);
    }
  }

  ghost predicate RequestObstacles(s: State, c: Account, d: Account, r: Outcome) {
    && (r == Err(DelegatorDNE) <==> d !in s.delegators)
    && (r == Err(PendingDelegationRequestDNE) <==> d in s.delegators && Requested(s, c, d).None?)
  }

  /** Cancelling and executing fail only for a missing delegator, a missing request, or one not due yet. */
  lemma ExecutionRefusals(cfg: Config, s: State, c: Account, d: Account)
    requires Inv(cfg, s)
    ensures var (t, r) := CancelRequest(s, c, d); (r.Err? ==> t == s) && RequestObstacles(s, c, d, r)
    ensures var (t, r) := Execute(cfg, s, c, d);
            var early := Requested(s, c, d).Some? && s.round < Requested(s, c, d).value.whenExecutable;
            && (r.Err? ==> t == s) && RequestObstacles(s, c, d, r)
            && (r == Err(PendingDelegationRequestNotDueYet) <==> early)
  {
    assert PairOk(cfg, s, c, d);
    if Requested(s, c, d).Some? && Requested(s, c, d).value.whenExecutable <= s.round {
      DueRequestExecutes(cfg, s, c, d);
    }
  }

  /** Raising a bond fails for a missing delegator, a revocation under way, a missing bond or missing funds, in
      this order. */
  lemma BondMoreRefusals(cfg: Config, s: State, c: Account, d: Account, more: nat)
    requires Inv(cfg, s)
    ensures var (t, r) := BondMore(s, c, d, more);
            var bond := Bonded(s, d, c);
            var revoking := Requested(s, c, d).Some? && Requested(s, c, d).value.action.Revoke?;
            var short := Amount(s.funds, d) < AllBonded(s, d) + more;
            && (r == Err(DelegatorDNE) <==> d !in s.delegators)
            && (r == Err(PendingDelegationRevoke) <==> revoking)
            && (r == Err(DelegationDNE) <==> d in s.delegators && !revoking && bond.None?)
            && (r == Err(InsufficientBalance) <==> bond.Some? && !revoking && short)
            && (r.Err? ==> t == s)
  {
    assert OnePerDelegator(RequestsFor(s.requests, c)) && PairOk(cfg, s, c, d);
    RevokeIsTheRequest(RequestsFor(s.requests, c), d);
    StakableIsUnbonded(cfg, s, d, more);
    if Bonded(s, d, c).Some? {
      BondedIsOk(cfg, s, d, c);
    }
  }

  /** What stands in the way of a setting, by the error that reports it. */
  ghost predicate SettingObstacle(cfg: Config, s: State, c: Account, d: Account, p: nat, autoHint: nat,
                                  delegationHint: nat, e: Error)
  {
    var settings := |AutoCompoundFor(s.autoCompounds, c)|;
    match e
    case DelegatorDNE => d !in s.delegators
    case TooLowDelegationCountToAutoCompound => d in s.delegators && delegationHint < |s.delegators[d].delegations|
    case DelegationDNE => Bonded(s, d, c) == None
    case TooLowCandidateAutoCompoundingDelegationCountToAutoCompound => autoHint < settings
    case ExceedMaxDelegationsPerDelegator => p != 0 && cfg.maxDelegationsPerCandidate <= settings
    case _ => false
  }

  /** Every refusal of a setting names an obstacle that is there, and changes nothing. */
  lemma SetAutoCompoundRefusals(cfg: Config, s: State, c: Account, d: Account, p: nat, autoHint: nat,
                                delegationHint: nat)
    ensures var (t, r) := SetAutoCompound(cfg, s, c, d, p, autoHint, delegationHint);
            r.Err? ==> t == s && SettingObstacle(cfg, s, c, d, p, autoHint, delegationHint, r.error)
  {
  }

  /** What stands in the way of a delegation, by the error that reports it. */
  ghost predicate DelegateObstacle(cfg: Config, s: State, c: Account, d: Account, amount: nat, p: nat, hints: Hints,
                                   side: CandidateSide, e: Error)
  {
    match e
    case InsufficientBalance => Amount(s.funds, d) < AllBonded(s, d) + amount
    case DelegationBelowMin => amount < cfg.minDelegation
    case TooLowDelegationCountToDelegate => d in s.delegators && hints.delegations < |s.delegators[d].delegations|
    case ExceedMaxDelegationsPerDelegator =>
      || (d in s.delegators && cfg.maxDelegationsPerDelegator <= |s.delegators[d].delegations|)
      || (p != 0 && cfg.maxDelegationsPerCandidate <= SettingsLeft(s, c, side.admission))
    case AlreadyDelegatedCandidate => Bonded(s, d, c).Some?
    case CandidateExists => d !in s.delegators && d in s.candidates
    case CandidateDNE => c !in s.candidates
    case TooLowCandidateDelegationCountToDelegate => hints.candidateDelegations < side.delegationCount
    case TooLowCandidateAutoCompoundingDelegationCountToDelegate =>
      p != 0 && hints.autoCompounding < |AutoCompoundFor(s.autoCompounds, c)|
    case CannotDelegateLessThanOrEqualToLowestBottomWhenFull => side.admission.Refused?
    case _ => false
  }

  lemma RefusalIsObstacle(cfg: Config, s: State, c: Account, d: Account, amount: nat, p: nat, hints: Hints,
                          side: CandidateSide)
    requires Inv(cfg, s)
    ensures var refusal := DelegateRefusal(cfg, s, c, d, amount, p, hints, side.delegationCount);
            refusal.Some? ==> DelegateObstacle(cfg, s, c, d, amount, p, hints, side, refusal.value)
    ensures Bonded(s, d, c).Some? ==> DelegateRefusal(cfg, s, c, d, amount, p, hints, side.delegationCount).Some?
  {
    StakableIsUnbonded(cfg, s, d, amount);
  }

  /** Every refusal of a delegation names an obstacle that is there, and changes nothing. */
  lemma DelegateRefusals(cfg: Config, s: State, c: Account, d: Account, amount: nat, p: nat, hints: Hints,
                         side: CandidateSide)
    requires Inv(cfg, s)
    requires side.admission.AdmittedKicking? ==> Bonded(s, side.admission.lowest, c).Some?
    ensures var (t, r) := Delegate(cfg, s, c, d, amount, p, hints, side);
            r.Err? ==> t == s && DelegateObstacle(cfg, s, c, d, amount, p, hints, side, r.error)
  {
    RefusalIsObstacle(cfg, s, c, d, amount, p, hints, side);
    if Bonded(s, d, c).None? {
      RoomLeavesSettings(cfg, s, c, d, side.admission);
    }
  }

  // ---------- What calls change ----------

  ghost predicate SameBonds(s: State, t: State, c: Account, d: Account) {
    forall k, e :: k != c || e != d ==> Bonded(t, e, k) == Bonded(s, e, k)
  }

  ghost predicate SameRequests(s: State, t: State, c: Account, d: Account) {
    forall k, e :: k != c || e != d ==> Requested(t, k, e) == Requested(s, k, e)
  }

  ghost predicate SameSettings(s: State, t: State, c: Account, d: Account) {
    forall k, e :: k != c || e != d ==> AutoCompound(t, k, e) == AutoCompound(s, k, e)
  }

  /** Scheduling adds one request, due after the delay, and its amount to the cached sum. */
  lemma ScheduleMeans(cfg: Config, s: State, c: Account, d: Account, less: Option<nat>)
    requires Inv(cfg, s)
    requires var r := if less.Some? then ScheduleDecrease(cfg, s, c, d, less.value) else ScheduleRevoke(cfg, s, c, d);
             r.1.Ok?
    ensures var t := (if less.Some? then ScheduleDecrease(cfg, s, c, d, less.value)
                      else ScheduleRevoke(cfg, s, c, d)).0;
            var action := if less.Some? then Decrease(less.value) else Revoke(Bonded(s, d, c).value);
            var due := s.round + if less.Some? then cfg.bondLessDelay else cfg.revokeDelay;
            && Requested(t, c, d) == Some(ScheduledRequest(d, if due <= U32_MAX then due else U32_MAX, action))
            && SameRequests(s, t, c, d)
            && (forall k, e :: Bonded(t, e, k) == Bonded(s, e, k))
            && t == s.(requests := t.requests, delegators := t.delegators)
            && t.delegators[d].total == s.delegators[d].total
            && t.delegators[d].lessTotal == s.delegators[d].lessTotal + action.amount
  {
    var delay := if less.Some? then cfg.bondLessDelay else cfg.revokeDelay;
    var action := if less.Some? then Decrease(less.value) else Revoke(Bonded(s, d, c).value);
    PushMeans(cfg, s, c, ScheduledRequest(d, SaturatingAdd(s.round, delay, U32_MAX), action));
  }

  lemma PushMeans(cfg: Config, s: State, c: Account, request: ScheduledRequest)
    requires Inv(cfg, s) && request.delegator in s.delegators
    requires Requested(s, c, request.delegator).None?
    requires Backed(cfg, Bonded(s, request.delegator, c), request.action)
    ensures var d := request.delegator;
            var t := Push(s, c, s.delegators[d], request);
            && Requested(t, c, d) == Some(request)
            && SameRequests(s, t, c, d)
            && (forall k, e :: Bonded(t, e, k) == Bonded(s, e, k))
            && t.delegators[d].lessTotal == s.delegators[d].lessTotal + request.action.amount
  {
    assert OnePerDelegator(RequestsFor(s.requests, c));
    PushLaws(RequestsFor(s.requests, c), request);
    PushDelegator(cfg, s, c, request);
  }

  /** Cancelling removes one request, and its amount from the cached sum. */
  lemma CancelMeans(cfg: Config, s: State, c: Account, d: Account)
    requires Inv(cfg, s) && CancelRequest(s, c, d).1.Ok?
    ensures var t := CancelRequest(s, c, d).0;
            && Requested(t, c, d).None? && SameRequests(s, t, c, d)
            && (forall k, e :: Bonded(t, e, k) == Bonded(s, e, k))
            && t == s.(requests := t.requests, delegators := t.delegators)
            && t.delegators[d].total == s.delegators[d].total
            && t.delegators[d].lessTotal + Requested(s, c, d).value.action.amount == s.delegators[d].lessTotal
  {
    assert PairOk(cfg, s, c, d);
    assert OnePerDelegator(RequestsFor(s.requests, c));
    WithoutLaws(RequestsFor(s.requests, c), d);
    PendingFits(cfg, s, d, c);
  }

  /** Bonding more raises one bond and the total by the amount; nothing saturates. */
  lemma BondMoreMeans(cfg: Config, s: State, c: Account, d: Account, more: nat)
    requires Inv(cfg, s) && BondMore(s, c, d, more).1.Ok?
    ensures var t := BondMore(s, c, d, more).0;
            && Bonded(t, d, c) == Some(Bonded(s, d, c).value + more) && SameBonds(s, t, c, d)
            && t == s.(delegators := t.delegators)
            && t.delegators[d].total == s.delegators[d].total + more
            && t.delegators[d].lessTotal == s.delegators[d].lessTotal
  {
    assert DelegatorOk(cfg, s, d);
    BondedIsOk(cfg, s, d, c);
    PutLaws(s.delegators[d].delegations, c, Bonded(s, d, c).value + more);
  }

  /** A kick takes bond, request and setting of one pair, and the delegator with its last bond. */
  lemma KickMeans(cfg: Config, s: State, c: Account, d: Account)
    requires Inv(cfg, s) && Bonded(s, d, c).Some?
    ensures var t := Kick(s, c, d);
            && Bonded(t, d, c) == None && SameBonds(s, t, c, d)
            && Requested(t, c, d) == None && SameRequests(s, t, c, d)
            && AutoCompound(t, c, d) == 0 && SameSettings(s, t, c, d)
            && (d in t.delegators <==> exists k :: k != c && Bonded(s, d, k).Some?)
  {
    EndDelegationEnds(cfg, s, c, d);
    KickKeeps(cfg, s, c, d);
    var t := Kick(s, c, d);
    EndedPairs(cfg, s, t, c, d);
    PairGone(s, t, c, d);
    assert AutoOk(s, c);
    RemoveAutoLaws(s, c, d);
    LeavesWithLastBond(cfg, s, t, c, d);
  }

  lemma PairGone(s: State, t: State, c: Account, d: Account)
    requires OnlyPairChanged(s, t, c, d)
    ensures SameBonds(s, t, c, d) && SameRequests(s, t, c, d) && SameSettings(s, t, c, d)
  {
    forall k, e | k != c || e != d
      ensures Bonded(t, e, k) == Bonded(s, e, k) && Requested(t, k, e) == Requested(s, k, e)
    {
    }
  }

  lemma LeavesWithLastBond(cfg: Config, s: State, t: State, c: Account, d: Account)
    requires Inv(cfg, t) && Bonded(t, d, c) == None && forall k :: k != c ==> Bonded(t, d, k) == Bonded(s, d, k)
    ensures d in t.delegators <==> exists k :: k != c && Bonded(s, d, k).Some?
  {
    if d in t.delegators {
      assert DelegatorOk(cfg, t, d);
      LookupAt(t.delegators[d].delegations, 0);
      assert Bonded(t, d, t.delegators[d].delegations[0].key).Some?;
    }
  }

  /** Delegating adds one bond of the amount, and the amount to the total. The only other bond it touches is
      the one the candidate kicks to make room. */
  lemma DelegateMeans(cfg: Config, s: State, c: Account, d: Account, amount: nat, p: nat, hints: Hints,
                      side: CandidateSide)
    requires Inv(cfg, s) && Delegate(cfg, s, c, d, amount, p, hints, side).1.Ok?
    requires side.admission.AdmittedKicking? ==> Bonded(s, side.admission.lowest, c).Some?
    ensures var t := Delegate(cfg, s, c, d, amount, p, hints, side).0;
            && Bonded(s, d, c) == None && Bonded(t, d, c) == Some(amount)
            && (forall k, e :: k != c || e != d ==>
                  Bonded(t, e, k) == if k == c && side.admission == AdmittedKicking(e) then None else Bonded(s, e, k))
            && (forall k, e ::
                  Requested(t, k, e)
                    == if k == c && side.admission == AdmittedKicking(e) then None else Requested(s, k, e))
            && t.delegators[d].total == amount + (if d in s.delegators then s.delegators[d].total else 0)
            && t.delegators[d].lessTotal == (if d in s.delegators then s.delegators[d].lessTotal else 0)
            && t == s.(delegators := t.delegators, requests := t.requests, autoCompounds := t.autoCompounds)
  {
    RoomIsForOthers(cfg, s, c, d, side.admission);
    RoomTakesOneBond(cfg, s, c, side.admission);
    StakableIsUnbonded(cfg, s, d, amount);
    SettleMeans(cfg, MadeRoom(s, c, side.admission), c, d, amount, p);
  }

  lemma RoomTakesOneBond(cfg: Config, s: State, c: Account, admission: Admission)
    requires Inv(cfg, s) && (admission.AdmittedKicking? ==> Bonded(s, admission.lowest, c).Some?)
    ensures forall k, e :: Bonded(MadeRoom(s, c, admission), e, k)
              == if k == c && admission == AdmittedKicking(e) then None else Bonded(s, e, k)
    ensures forall k, e :: Requested(MadeRoom(s, c, admission), k, e)
              == if k == c && admission == AdmittedKicking(e) then None else Requested(s, k, e)
  {
    if admission.AdmittedKicking? {
      KickMeans(cfg, s, c, admission.lowest);
    }
  }

  lemma SettleMeans(cfg: Config, s: State, c: Account, d: Account, amount: nat, p: nat)
    requires Inv(cfg, s) && Bonded(s, d, c).None? && amount <= StakableBalance(s, d)
    requires Settle(cfg, s, c, DelegatorAfterBond(s, c, d, amount), d, p).1.Ok?
    ensures var t := Settle(cfg, s, c, DelegatorAfterBond(s, c, d, amount), d, p).0;
            && Bonded(t, d, c) == Some(amount) && SameBonds(s, t, c, d)
            && t.delegators[d].total == amount + (if d in s.delegators then s.delegators[d].total else 0)
            && t.delegators[d].lessTotal == (if d in s.delegators then s.delegators[d].lessTotal else 0)
            && t == s.(delegators := t.delegators, autoCompounds := t.autoCompounds)
  {
    if d in s.delegators {
      assert DelegatorOk(cfg, s, d);
      PutLaws(s.delegators[d].delegations, c, amount);
    } else {
      PutLaws([], c, amount);
      assert Put([], c, amount) == [Row(c, amount)];
    }
  }

  /** Bonds, requests and settings with other candidates are as before. */
  ghost predicate SameElsewhere(s: State, t: State, c: Account) {
    forall k, e :: k != c ==>
      Bonded(t, e, k) == Bonded(s, e, k) && Requested(t, k, e) == Requested(s, k, e)
      && AutoCompound(t, k, e) == AutoCompound(s, k, e)
  }

  lemma {:induction false} ReturnAllMeans(cfg: Config, s: State, c: Account, owners: seq<Account>)
    requires Inv(cfg, s)
    requires forall i :: 0 <= i < |owners| ==> Bonded(s, owners[i], c).Some?
    requires forall i, j :: 0 <= i < j < |owners| ==> owners[i] != owners[j]
    ensures SameElsewhere(s, ReturnAll(s, c, owners), c)
    decreases |owners|
  {
    if owners != [] {
      var d := owners[0];
      EndDelegationEnds(cfg, s, c, d);
      KickKeeps(cfg, s, c, d);
      KickMeans(cfg, s, c, d);
      var next := ReturnStake(s, c, d);
      assert SameElsewhere(s, next, c);
      ReturnAllMeans(cfg, next, c, owners[1..]);
    }
  }

  /** A candidate that leaves takes its bonds, requests and settings with it, and nothing else changes; a delegator
      stays exactly while it has another bond. */
  lemma LeaveMeans(cfg: Config, s: State, c: Account, owners: seq<Account>)
    requires Inv(cfg, s)
    requires forall d :: d in owners <==> Bonded(s, d, c).Some?
    requires forall i, j :: 0 <= i < j < |owners| ==> owners[i] != owners[j]
    ensures var t := LeaveCandidate(s, c, owners);
            && SameElsewhere(s, t, c)
            && (forall d :: Bonded(t, d, c) == None && Requested(t, c, d) == None && AutoCompound(t, c, d) == 0)
            && t.candidates == s.candidates - {c} && t.funds == s.funds && t.round == s.round
            && (forall d :: d in t.delegators <==> exists k :: k != c && Bonded(s, d, k).Some?)
  {
    LeaveKeeps(cfg, s, c, owners);
    ReturnAllKeeps(cfg, s, c, owners);
    ReturnAllMeans(cfg, s, c, owners);
    var t := LeaveCandidate(s, c, owners);
    ClearingKeepsOthers(s, ReturnAll(s, c, owners), t, c);
    NothingLeft(cfg, t, c);
    forall d ensures d in t.delegators <==> exists k :: k != c && Bonded(s, d, k).Some? {
      assert Bonded(t, d, c) == None;
      forall k | k != c ensures Bonded(t, d, k) == Bonded(s, d, k) {}
      LeavesWithLastBond(cfg, s, t, c, d);
    }
  }

  lemma ClearingKeepsOthers(s: State, u: State, t: State, c: Account)
    requires SameElsewhere(s, u, c) && t.delegators == u.delegators
    requires t.requests == u.requests - {c} && t.autoCompounds == u.autoCompounds - {c}
    ensures SameElsewhere(s, t, c)
  {
  }

  // ---------- The life of a request, as a run ----------

  lemma RunOfTwo(cfg: Config, s: State, a: Call, b: Call)
    ensures Run(cfg, s, [a, b]) == Apply(cfg, Apply(cfg, s, a), b)
  {
    assert [a, b][1..] == [b] && [b][1..] == [];
    assert Run(cfg, Apply(cfg, Apply(cfg, s, a), b), []) == Apply(cfg, Apply(cfg, s, a), b);
  }

  lemma ExecutedInRound(cfg: Config, s: State, c: Account, d: Account, round: nat)
    requires Inv(cfg, s) && FundsOk(s) && Requested(s, c, d).Some?
    requires Requested(s, c, d).value.whenExecutable <= round && Requested(s, c, d).value.action.Revoke?
    ensures var t := Apply(cfg, Apply(cfg, s, RoundChanged(round)), CallExecute(c, d));
            && Bonded(t, d, c) == None && Requested(t, c, d) == None && SameBonds(s, t, c, d)
  {
    var due := Apply(cfg, s, RoundChanged(round));
    EnvironmentKeeps(cfg, s, RoundChanged(round));
    forall k, e ensures Bonded(due, e, k) == Bonded(s, e, k) && Requested(due, k, e) == Requested(s, k, e) {}
    ExecutionSucceedsExactly(cfg, due, c, d);
    ExecuteMeans(cfg, due, c, d);
  }

  /** A scheduled revocation that is left alone until it is due ends the delegation. */
  lemma RevocationEndsDelegation(cfg: Config, s: State, c: Account, d: Account, round: nat)
    requires Inv(cfg, s) && FundsOk(s) && ScheduleRevoke(cfg, s, c, d).1 == Ok(())
    requires s.round + cfg.revokeDelay <= round
    ensures var t := Run(cfg, Apply(cfg, s, CallScheduleRevoke(c, d)), [RoundChanged(round), CallExecute(c, d)]);
            Bonded(t, d, c) == None && Requested(t, c, d) == None && SameBonds(s, t, c, d)
  {
    var scheduled := Apply(cfg, s, CallScheduleRevoke(c, d));
    ScheduleMeans(cfg, s, c, d, None);
    RevokeCallKeeps(cfg, s, CallScheduleRevoke(c, d));
    SameFunds(s, scheduled);
    ExecutedInRound(cfg, scheduled, c, d, round);
    RunOfTwo(cfg, scheduled, RoundChanged(round), CallExecute(c, d));
  }

  /** Cancelled right away, it leaves every bond, request and cached sum as it was. */
  lemma CancelledRevocationLeavesNothing(cfg: Config, s: State, c: Account, d: Account)
    requires Inv(cfg, s) && ScheduleRevoke(cfg, s, c, d).1 == Ok(())
    ensures var t := Run(cfg, s, [CallScheduleRevoke(c, d), CallCancel(c, d)]);
            t.delegators == s.delegators && forall k, e :: Requested(t, k, e) == Requested(s, k, e)
  {
    RunOfTwo(cfg, s, CallScheduleRevoke(c, d), CallCancel(c, d));
    ScheduleThenCancel(cfg, s, c, d, None);
    var t := Run(cfg, s, [CallScheduleRevoke(c, d), CallCancel(c, d)]);
    forall k, e ensures Requested(t, k, e) == Requested(s, k, e) {
      assert RequestsFor(t.requests, k) == RequestsFor(s.requests, k);
    }
  }
}
