/** Runs of the staking calls from an empty state, and the laws they obey. */
module StakingRuns {
  import opened Integers
  import opened Xcm
  import opened SortedRows
  import opened Staking
  import opened StakingInvariant
  import opened StakingPreservation

  // ---------- A candidate leaves ----------

  lemma {:induction false} ReturnAllKeeps(cfg: Config, s: State, c: Account, owners: seq<Account>)
    requires Inv(cfg, s)
    requires forall i :: 0 <= i < |owners| ==> Bonded(s, owners[i], c).Some?
    requires forall i, j :: 0 <= i < j < |owners| ==> owners[i] != owners[j]
    ensures var t := ReturnAll(s, c, owners);
            && Inv(cfg, t) && t.funds == s.funds && t.candidates == s.candidates && t.round == s.round
            && (forall d :: Bonded(t, d, c) == if d in owners then None else Bonded(s, d, c))
    decreases |owners|
  {
    if owners != [] {
      var d := owners[0];
      EndDelegationEnds(cfg, s, c, d);
      KickKeeps(cfg, s, c, d);
      var next := ReturnStake(s, c, d);
      EndedPairs(cfg, s, next, c, d);
      forall e | e != d ensures Bonded(next, e, c) == Bonded(s, e, c) {
        assert e in s.delegators <==> e in next.delegators;
      }
      ReturnAllKeeps(cfg, next, c, owners[1..]);
    }
  }

  /** Once every stake is returned the candidate has no request and no auto-compound row left, so
      clearing its storage loses nothing. */
  lemma NothingLeft(cfg: Config, t: State, c: Account)
    requires Inv(cfg, t) && forall d :: Bonded(t, d, c).None?
    ensures RequestsFor(t.requests, c) == [] && AutoCompoundFor(t.autoCompounds, c) == []
  {
    forall d ensures Requested(t, c, d).None? { assert PairOk(cfg, t, c, d); }
    assert AutoOk(t, c);
    var list, rows := RequestsFor(t.requests, c), AutoCompoundFor(t.autoCompounds, c);
    var first := if list != [] then Requested(t, c, list[0].delegator) else None;
    var row := if rows != [] then Lookup(rows, rows[0].key) else None;
    assert first.Some? <==> list != [];
    assert row.Some? <==> rows != [];
  }

  lemma LeaveKeeps(cfg: Config, s: State, c: Account, owners: seq<Account>)
    requires Inv(cfg, s)
    requires forall d :: d in owners <==> Bonded(s, d, c).Some?
    requires forall i, j :: 0 <= i < j < |owners| ==> owners[i] != owners[j]
    ensures Inv(cfg, LeaveCandidate(s, c, owners))
    ensures forall d :: Bonded(LeaveCandidate(s, c, owners), d, c).None?
    ensures LeaveCandidate(s, c, owners).funds == s.funds
  {
    ReturnAllKeeps(cfg, s, c, owners);
    var t := ReturnAll(s, c, owners);
    NothingLeft(cfg, t, c);
    var u := LeaveCandidate(s, c, owners);
    forall k ensures RequestsFor(u.requests, k) == RequestsFor(t.requests, k)
             ensures AutoCompoundFor(u.autoCompounds, k) == AutoCompoundFor(t.autoCompounds, k) {
    }
    CandidatesMayShrink(cfg, t, u, c);
    forall d ensures Bonded(u, d, c).None? {
      assert Bonded(t, d, c) == if d in owners then None else Bonded(s, d, c);
    }
  }

  lemma CandidatesMayShrink(cfg: Config, t: State, u: State, c: Account)
    requires Inv(cfg, t) && forall d :: Bonded(t, d, c).None?
    requires u.delegators == t.delegators && u.funds == t.funds && u.candidates == t.candidates - {c}
    requires forall k :: RequestsFor(u.requests, k) == RequestsFor(t.requests, k)
                      && AutoCompoundFor(u.autoCompounds, k) == AutoCompoundFor(t.autoCompounds, k)
    ensures Inv(cfg, u)
  {
    forall d | d in u.delegators ensures DelegatorOk(cfg, u, d) {
      assert DelegatorOk(cfg, t, d);
      var bonds := t.delegators[d].delegations;
      PendingFrame(t.requests, u.requests, bonds, d);
      forall i | 0 <= i < |bonds| ensures BondOk(cfg, u, bonds[i]) {
        assert BondOk(cfg, t, bonds[i]);
        LookupAt(bonds, i);
        assert Bonded(t, d, bonds[i].key).Some?;
      }
    }
    forall k, d ensures PairOk(cfg, u, k, d) { assert PairOk(cfg, t, k, d); }
    forall k ensures AutoOk(u, k) {
      assert AutoOk(t, k);
      var rows := AutoCompoundFor(u.autoCompounds, k);
      forall e | Lookup(rows, e).Some? ensures Lookup(rows, e).value != 0 && Bonded(u, e, k).Some? {
        assert Bonded(t, e, k).Some?;
      }
    }
  }

  // ---------- Calls and runs ----------

  datatype Call =
    | CallDelegate(candidate: Account, delegator: Account, amount: nat, percent: nat, hints: Hints, side: CandidateSide)
    | CallBondMore(candidate: Account, delegator: Account, more: nat)
    | CallScheduleRevoke(candidate: Account, delegator: Account)
    | CallScheduleDecrease(candidate: Account, delegator: Account, less: nat)
    | CallCancel(candidate: Account, delegator: Account)
    | CallExecute(candidate: Account, delegator: Account)
    | CallSetAutoCompound(candidate: Account, delegator: Account, value: nat, autoHint: nat, delegationHint: nat)
    | Joined(candidate: Account)
    | CallExecuteLeave(candidate: Account, leaving: Option<nat>, owners: seq<Account>)
    | FundsChanged(account: Account, funds: nat)
    | RoundChanged(round: nat)

  /** What the candidate side and the rest of the runtime guarantee: a kicked delegation exists, a candidate
      lists exactly its delegators, locks keep bonded funds in place. */
  ghost predicate Admissible(s: State, call: Call) {
    match call
    case CallDelegate(c, _, _, _, _, side) =>
      side.admission.AdmittedKicking? ==> Bonded(s, side.admission.lowest, c).Some?
    case CallExecuteLeave(c, _, owners) =>
      && (forall d :: d in owners <==> Bonded(s, d, c).Some?)
      && (forall i, j :: 0 <= i < j < |owners| ==> owners[i] != owners[j])
    case FundsChanged(a, amount) => amount <= U128_MAX && (a in s.delegators ==> s.delegators[a].total <= amount)
    case _ => true
  }

  function Apply(cfg: Config, s: State, call: Call): State {
    match call
    case CallDelegate(c, d, amount, percent, hints, side) => Delegate(cfg, s, c, d, amount, percent, hints, side).0
    case CallBondMore(c, d, more) => BondMore(s, c, d, more).0
    case CallScheduleRevoke(c, d) => ScheduleRevoke(cfg, s, c, d).0
    case CallScheduleDecrease(c, d, less) => ScheduleDecrease(cfg, s, c, d, less).0
    case CallCancel(c, d) => CancelRequest(s, c, d).0
    case CallExecute(c, d) => Execute(cfg, s, c, d).0
    case CallSetAutoCompound(c, d, value, h0, h1) => SetAutoCompound(cfg, s, c, d, value, h0, h1).0
    case Joined(c) => s.(candidates := s.candidates + {c})
    case CallExecuteLeave(c, leaving, owners) => ExecuteLeave(s, c, leaving, owners).0
    case FundsChanged(a, amount) => s.(funds := s.funds[a := amount])
    case RoundChanged(r) => s.(round := r)
  }

  function Run(cfg: Config, s: State, calls: seq<Call>): State
    decreases |calls|
  {
    if calls == [] then s else Run(cfg, Apply(cfg, s, calls[0]), calls[1..])
  }

  ghost predicate AdmissibleRun(cfg: Config, s: State, calls: seq<Call>)
    decreases |calls|
  {
    calls == [] || (Admissible(s, calls[0]) && AdmissibleRun(cfg, Apply(cfg, s, calls[0]), calls[1..]))
  }

  ghost predicate FundsOk(s: State) {
    forall a :: Amount(s.funds, a) <= U128_MAX
  }

  const EMPTY := State(map[], map[], map[], {}, map[], 0)

  lemma EnvironmentKeeps(cfg: Config, s: State, call: Call)
    requires Inv(cfg, s) && FundsOk(s) && Admissible(s, call)
    requires call.Joined? || call.FundsChanged? || call.RoundChanged?
    ensures Inv(cfg, Apply(cfg, s, call)) && FundsOk(Apply(cfg, s, call))
  {
    var t := Apply(cfg, s, call);
    forall a ensures Amount(t.funds, a) <= U128_MAX { assert Amount(s.funds, a) <= U128_MAX; }
    forall d | d in t.delegators ensures DelegatorOk(cfg, t, d) {
      assert DelegatorOk(cfg, s, d);
      var bonds := t.delegators[d].delegations;
      forall i | 0 <= i < |bonds| ensures BondOk(cfg, t, bonds[i]) { assert BondOk(cfg, s, bonds[i]); }
    }
    forall c, d ensures PairOk(cfg, t, c, d) { assert PairOk(cfg, s, c, d); }
    forall c ensures AutoOk(t, c) {
      assert AutoOk(s, c);
      var rows := AutoCompoundFor(t.autoCompounds, c);
      forall e | Lookup(rows, e).Some? ensures Lookup(rows, e).value != 0 && Bonded(t, e, c).Some? {
        assert Bonded(s, e, c).Some?;
      }
    }
  }

  lemma RevokeCallKeeps(cfg: Config, s: State, call: Call)
    requires Inv(cfg, s) && call.CallScheduleRevoke?
    ensures Inv(cfg, Apply(cfg, s, call)) && Apply(cfg, s, call).funds == s.funds
  {
    match call
    case CallScheduleRevoke(c, d) => ScheduleRevokeKeeps(cfg, s, c, d);
  }

  lemma DecreaseCallKeeps(cfg: Config, s: State, call: Call)
    requires Inv(cfg, s) && call.CallScheduleDecrease?
    ensures Inv(cfg, Apply(cfg, s, call)) && Apply(cfg, s, call).funds == s.funds
  {
    match call
    case CallScheduleDecrease(c, d, less) => ScheduleDecreaseKeeps(cfg, s, c, d, less);
  }

  lemma CancelCallKeeps(cfg: Config, s: State, call: Call)
    requires Inv(cfg, s) && call.CallCancel?
    ensures Inv(cfg, Apply(cfg, s, call)) && Apply(cfg, s, call).funds == s.funds
  {
    match call
    case CallCancel(c, d) => CancelKeeps(cfg, s, c, d);
  }

  lemma ExecuteCallKeeps(cfg: Config, s: State, call: Call)
    requires Inv(cfg, s) && call.CallExecute?
    ensures Inv(cfg, Apply(cfg, s, call)) && Apply(cfg, s, call).funds == s.funds
  {
    match call
    case CallExecute(c, d) => ExecuteKeeps(cfg, s, c, d);
  }

  lemma LeaveCallKeeps(cfg: Config, s: State, call: Call)
    requires Inv(cfg, s) && Admissible(s, call) && call.CallExecuteLeave?
    ensures Inv(cfg, Apply(cfg, s, call)) && Apply(cfg, s, call).funds == s.funds
  {
    LeaveKeeps(cfg, s, call.candidate, call.owners);
  }

  lemma DelegateCallKeeps(cfg: Config, s: State, call: Call)
    requires Inv(cfg, s) && FundsOk(s) && Admissible(s, call) && call.CallDelegate?
    ensures Inv(cfg, Apply(cfg, s, call)) && Apply(cfg, s, call).funds == s.funds
  {
    assert Amount(s.funds, call.delegator) <= U128_MAX;
    DelegateKeeps(cfg, s, call.candidate, call.delegator, call.amount, call.percent, call.hints, call.side);
  }

  lemma BondMoreCallKeeps(cfg: Config, s: State, call: Call)
    requires Inv(cfg, s) && call.CallBondMore?
    ensures Inv(cfg, Apply(cfg, s, call)) && Apply(cfg, s, call).funds == s.funds
  {
    BondMoreKeeps(cfg, s, call.candidate, call.delegator, call.more);
  }

  lemma AutoCompoundCallKeeps(cfg: Config, s: State, call: Call)
    requires Inv(cfg, s) && call.CallSetAutoCompound?
    ensures Inv(cfg, Apply(cfg, s, call)) && Apply(cfg, s, call).funds == s.funds
  {
    match call
    case CallSetAutoCompound(c, d, value, h0, h1) => SetAutoCompoundKeeps(cfg, s, c, d, value, h0, h1);
  }

  lemma StepKeeps(cfg: Config, s: State, call: Call)
    requires Inv(cfg, s) && FundsOk(s) && Admissible(s, call)
    ensures Inv(cfg, Apply(cfg, s, call)) && FundsOk(Apply(cfg, s, call))
  {
    if call.Joined? || call.FundsChanged? || call.RoundChanged? {
      EnvironmentKeeps(cfg, s, call);
    } else {
      if call.CallScheduleRevoke? {
        RevokeCallKeeps(cfg, s, call);
      } else if call.CallScheduleDecrease? {
        DecreaseCallKeeps(cfg, s, call);
      } else if call.CallCancel? {
        CancelCallKeeps(cfg, s, call);
      } else if call.CallExecute? {
        ExecuteCallKeeps(cfg, s, call);
      } else if call.CallDelegate? {
        DelegateCallKeeps(cfg, s, call);
      } else if call.CallExecuteLeave? {
        LeaveCallKeeps(cfg, s, call);
      } else if call.CallBondMore? {
        BondMoreCallKeeps(cfg, s, call);
      } else {
        AutoCompoundCallKeeps(cfg, s, call);
      }
      SameFunds(s, Apply(cfg, s, call));
    }
  }

  lemma SameFunds(s: State, t: State)
    requires FundsOk(s) && t.funds == s.funds
    ensures FundsOk(t)
  {
    forall a ensures Amount(t.funds, a) <= U128_MAX { assert Amount(s.funds, a) <= U128_MAX; }
  }

  lemma {:induction false} RunKeeps(cfg: Config, s: State, calls: seq<Call>)
    requires Inv(cfg, s) && FundsOk(s) && AdmissibleRun(cfg, s, calls)
    ensures Inv(cfg, Run(cfg, s, calls)) && FundsOk(Run(cfg, s, calls))
    decreases |calls|
  {
    if calls != [] {
      StepKeeps(cfg, s, calls[0]);
      RunKeeps(cfg, Apply(cfg, s, calls[0]), calls[1..]);
    }
  }

  lemma Reachable(cfg: Config, calls: seq<Call>)
    requires cfg.minDelegation > 0 && AdmissibleRun(cfg, EMPTY, calls)
    ensures Inv(cfg, Run(cfg, EMPTY, calls))
  {
    forall c ensures AutoOk(EMPTY, c) && OnePerDelegator(RequestsFor(EMPTY.requests, c)) {}
    RunKeeps(cfg, EMPTY, calls);
  }

  /** In every reachable state every due request executes, and does exactly what it asked for. */
  lemma EveryDueRequestExecutes(cfg: Config, calls: seq<Call>, c: Account, d: Account)
    requires cfg.minDelegation > 0 && AdmissibleRun(cfg, EMPTY, calls)
    requires var s := Run(cfg, EMPTY, calls);
             Requested(s, c, d).Some? && Requested(s, c, d).value.whenExecutable <= s.round
    ensures var s := Run(cfg, EMPTY, calls);
            var (t, r) := Execute(cfg, s, c, d);
            && r == Ok(())
            && Requested(t, c, d).None?
            && Bonded(s, d, c).Some?
            && (match Requested(s, c, d).value.action
                case Revoke(amount) => amount == Bonded(s, d, c).value && Bonded(t, d, c).None?
                case Decrease(amount) =>
                  amount < Bonded(s, d, c).value && Bonded(t, d, c) == Some(Bonded(s, d, c).value - amount))
  {
    var s := Run(cfg, EMPTY, calls);
    Reachable(cfg, calls);
    DueRequestExecutes(cfg, s, c, d);
    ExecuteMeans(cfg, s, c, d);
    assert PairOk(cfg, s, c, d);
  }

  /** What one execution does to every pair of a candidate and a delegator. */
  lemma ExecuteMeans(cfg: Config, s: State, c: Account, d: Account)
    requires Inv(cfg, s) && Execute(cfg, s, c, d).1.Ok?
    ensures var t := Execute(cfg, s, c, d).0;
            && Requested(t, c, d).None?
            && (forall k, e :: k != c || e != d ==>
                  Requested(t, k, e) == Requested(s, k, e) && Bonded(t, e, k) == Bonded(s, e, k))
            && Bonded(s, d, c).Some?
            && (match Requested(s, c, d).value.action
                case Revoke(amount) => Bonded(t, d, c).None?
                case Decrease(amount) =>
                  amount < Bonded(s, d, c).value && Bonded(t, d, c) == Some(Bonded(s, d, c).value - amount))
  {
    var t := Execute(cfg, s, c, d).0;
    assert PairOk(cfg, s, c, d);
    assert DelegatorOk(cfg, s, d);
    assert OnePerDelegator(RequestsFor(s.requests, c));
    WithoutLaws(RequestsFor(s.requests, c), d);
    match Requested(s, c, d).value.action {
      case Revoke(amount) =>
        RevokeEnds(cfg, s, c, d);
        EndedPairs(cfg, s, t, c, d);
      case Decrease(amount) =>
        DecreaseDelegator(cfg, s, c, d);
        PutLaws(s.delegators[d].delegations, c, Bonded(s, d, c).value - amount);
    }
    forall k, e | k != c || e != d
      ensures Requested(t, k, e) == Requested(s, k, e) && Bonded(t, e, k) == Bonded(s, e, k)
    {
      if e != d { assert e in s.delegators <==> e in t.delegators; }
    }
  }

  // ---------- The cached sum ----------

  ghost function PendingAcross(requests: Requests, collators: set<Account>, d: Account): nat {
    if collators == {} then 0
    else
      var c :| c in collators;
      PendingAmount(requests, c, d) + PendingAcross(requests, collators - {c}, d)
  }

  lemma {:induction false} PendingAcrossRemove(requests: Requests, collators: set<Account>, d: Account, c: Account)
    requires c in collators
    ensures PendingAcross(requests, collators, d)
         == PendingAmount(requests, c, d) + PendingAcross(requests, collators - {c}, d)
    decreases collators
  {
    var x :| x in collators && PendingAcross(requests, collators, d)
                            == PendingAmount(requests, x, d) + PendingAcross(requests, collators - {x}, d);
    if x != c {
      PendingAcrossRemove(requests, collators - {x}, d, c);
      assert collators - {x} - {c} == collators - {c} - {x};
      PendingAcrossRemove(requests, collators - {c}, d, x);
    }
  }

  lemma {:induction false} PendingAcrossBonds(requests: Requests, collators: set<Account>, bonds: seq<Bond>, d: Account)
    requires Ascending(bonds)
    requires forall c :: c in collators && Lookup(bonds, c).None? ==> PendingAmount(requests, c, d) == 0
    requires forall c :: c !in collators ==> Lookup(bonds, c).None? || PendingAmount(requests, c, d) == 0
    ensures PendingAcross(requests, collators, d) == PendingOver(requests, bonds, d)
    decreases |bonds|, collators
  {
    if bonds == [] {
      if collators != {} {
        var c :| c in collators;
        PendingAcrossRemove(requests, collators, d, c);
        PendingAcrossBonds(requests, collators - {c}, bonds, d);
      }
    } else {
      var c := bonds[0].key;
      LookupBelow(bonds[1..], c);
      if c in collators {
        PendingAcrossRemove(requests, collators, d, c);
      } else {
        assert PendingAmount(requests, c, d) == 0;
      }
      forall k | k in collators - {c} && Lookup(bonds[1..], k).None? ensures PendingAmount(requests, k, d) == 0 {
        assert Lookup(bonds, k).None?;
      }
      PendingAcrossBonds(requests, collators - {c}, bonds[1..], d);
      if c !in collators { assert collators - {c} == collators; }
    }
  }

  /** In every reachable state `lessTotal` is the sum of the delegator's requests over all collators,
      and it stays within `total`: no subtraction saturates. */
  lemma CachedSumIsExact(cfg: Config, calls: seq<Call>, d: Account)
    requires cfg.minDelegation > 0 && AdmissibleRun(cfg, EMPTY, calls)
    requires d in Run(cfg, EMPTY, calls).delegators
    ensures var s := Run(cfg, EMPTY, calls);
            && s.delegators[d].lessTotal == PendingAcross(s.requests, s.requests.Keys, d)
            && s.delegators[d].lessTotal <= s.delegators[d].total <= U128_MAX
            && (forall c :: OnePerDelegator(RequestsFor(s.requests, c)))
  {
    Reachable(cfg, calls);
    var s := Run(cfg, EMPTY, calls);
    assert DelegatorOk(cfg, s, d);
    var bonds := s.delegators[d].delegations;
    forall c ensures Lookup(bonds, c).None? ==> PendingAmount(s.requests, c, d) == 0 {
      assert PairOk(cfg, s, c, d);
      assert Lookup(bonds, c) == Bonded(s, d, c);
    }
    PendingAcrossBonds(s.requests, s.requests.Keys, bonds, d);
    LookupAt(bonds, 0);
    assert Bonded(s, d, bonds[0].key).Some?;
    PendingFits(cfg, s, d, bonds[0].key);
  }

  // ---------- Schedule, then cancel ----------

  lemma CancelTakesBack(s: State, c: Account, request: ScheduledRequest)
    requires request.delegator in s.delegators && Requested(s, c, request.delegator).None?
    requires s.delegators[request.delegator].lessTotal + request.action.amount <= U128_MAX
    requires OnePerDelegator(RequestsFor(s.requests, c))
    ensures var (u, r) := CancelRequest(Push(s, c, s.delegators[request.delegator], request), c, request.delegator);
            && r == Ok(())
            && u.delegators == s.delegators
            && (forall k :: RequestsFor(u.requests, k) == RequestsFor(s.requests, k))
            && u == s.(requests := u.requests)
  {
    var d := request.delegator;
    PushLaws(RequestsFor(s.requests, c), request);
    var u := CancelRequest(Push(s, c, s.delegators[d], request), c, d).0;
    assert u.delegators[d] == s.delegators[d];
    assert u.delegators == s.delegators;
  }

  lemma CancelUndoesPush(cfg: Config, s: State, c: Account, request: ScheduledRequest)
    requires Inv(cfg, s) && request.delegator in s.delegators
    requires Requested(s, c, request.delegator).None?
    requires Backed(cfg, Bonded(s, request.delegator, c), request.action)
    ensures var (u, r) := CancelRequest(Push(s, c, s.delegators[request.delegator], request), c, request.delegator);
            && r == Ok(())
            && u.delegators == s.delegators
            && (forall k :: RequestsFor(u.requests, k) == RequestsFor(s.requests, k))
            && u == s.(requests := u.requests)
  {
    assert OnePerDelegator(RequestsFor(s.requests, c));
    PushKeeps(cfg, s, c, request);
    CancelTakesBack(s, c, request);
  }

  /** Cancelling right after scheduling restores the delegator and every list of requests. */
  lemma ScheduleThenCancel(cfg: Config, s: State, c: Account, d: Account, less: Option<nat>)
    requires Inv(cfg, s)
    requires var scheduled := if less.Some? then ScheduleDecrease(cfg, s, c, d, less.value)
                              else ScheduleRevoke(cfg, s, c, d);
             scheduled.1.Ok?
    ensures var scheduled := if less.Some? then ScheduleDecrease(cfg, s, c, d, less.value)
                             else ScheduleRevoke(cfg, s, c, d);
            var (u, r) := CancelRequest(scheduled.0, c, d);
            && r == Ok(())
            && u.delegators == s.delegators
            && (forall k :: RequestsFor(u.requests, k) == RequestsFor(s.requests, k))
            && u == s.(requests := u.requests)
  {
    var delay := if less.Some? then cfg.bondLessDelay else cfg.revokeDelay;
    var action := if less.Some? then Decrease(less.value) else Revoke(Bonded(s, d, c).value);
    CancelUndoesPush(cfg, s, c, ScheduledRequest(d, SaturatingAdd(s.round, delay, U32_MAX), action));
  }

  // ---------- Auto-compounding is a total function in canonical form ----------

  /** Delegating with percentage `p` makes the lookup return `p`, zero included although nothing is then
      written, and zero for a delegation kicked to make room; every other lookup is as it was. */
  lemma DelegateSetsAutoCompound(cfg: Config, s: State, c: Account, d: Account, amount: nat, p: nat, hints: Hints,
                                 side: CandidateSide)
    requires Inv(cfg, s) && Delegate(cfg, s, c, d, amount, p, hints, side).1.Ok?
    requires side.admission.AdmittedKicking? ==> Bonded(s, side.admission.lowest, c).Some?
    ensures var t := Delegate(cfg, s, c, d, amount, p, hints, side).0;
            forall k, e :: AutoCompound(t, k, e)
              == if k == c && e == d then p
                 else if k == c && side.admission == AdmittedKicking(e) then 0
                 else AutoCompound(s, k, e)
  {
    RoomClearsSetting(cfg, s, c, side.admission);
    RoomIsForOthers(cfg, s, c, d, side.admission);
    var u, t := MadeRoom(s, c, side.admission), Delegate(cfg, s, c, d, amount, p, hints, side).0;
    SettleSets(cfg, u, c, DelegatorAfterBond(s, c, d, amount), d, p);
    forall k, e ensures AutoCompound(t, k, e) == if k == c && e == d then p else AutoCompound(u, k, e) {}
  }

  lemma SettleSets(cfg: Config, s: State, c: Account, record: Delegator, d: Account, p: nat)
    requires Inv(cfg, s) && Bonded(s, d, c).None? && Settle(cfg, s, c, record, d, p).1.Ok?
    ensures forall k, e :: AutoCompound(Settle(cfg, s, c, record, d, p).0, k, e)
              == if k == c && e == d then p else AutoCompound(s, k, e)
  {
    assert AutoOk(s, c);
    PutLaws(AutoCompoundFor(s.autoCompounds, c), d, p);
  }

  lemma RoomClearsSetting(cfg: Config, s: State, c: Account, admission: Admission)
    requires Inv(cfg, s) && (admission.AdmittedKicking? ==> Bonded(s, admission.lowest, c).Some?)
    ensures forall k, e :: AutoCompound(MadeRoom(s, c, admission), k, e)
              == if k == c && admission == AdmittedKicking(e) then 0 else AutoCompound(s, k, e)
  {
    if admission.AdmittedKicking? {
      EndDelegationEnds(cfg, s, c, admission.lowest);
      assert AutoOk(s, c);
      RemoveAutoLaws(s, c, admission.lowest);
    }
  }

  lemma SetAutoCompoundSets(cfg: Config, s: State, c: Account, d: Account, p: nat, h0: nat, h1: nat)
    requires Inv(cfg, s) && SetAutoCompound(cfg, s, c, d, p, h0, h1).1.Ok?
    ensures var t := SetAutoCompound(cfg, s, c, d, p, h0, h1).0;
            && (forall k, e :: AutoCompound(t, k, e) == if k == c && e == d then p else AutoCompound(s, k, e))
            && t == s.(autoCompounds := t.autoCompounds)
  {
    assert AutoOk(s, c);
    RemoveAutoLaws(s, c, d);
    PutLaws(AutoCompoundFor(s.autoCompounds, c), d, p);
  }

  /** Two states that answer every lookup alike store the same lists. */
  lemma AutoCompoundIsCanonical(cfg: Config, s: State, t: State, c: Account)
    requires Inv(cfg, s) && Inv(cfg, t)
    requires forall d :: AutoCompound(s, c, d) == AutoCompound(t, c, d)
    ensures AutoCompoundFor(s.autoCompounds, c) == AutoCompoundFor(t.autoCompounds, c)
  {
    assert AutoOk(s, c) && AutoOk(t, c);
    var a, b := AutoCompoundFor(s.autoCompounds, c), AutoCompoundFor(t.autoCompounds, c);
    forall d ensures Lookup(a, d) == Lookup(b, d) {
      assert AutoCompound(s, c, d) == AutoCompound(t, c, d);
    }
    Canonical(a, b);
  }
}
