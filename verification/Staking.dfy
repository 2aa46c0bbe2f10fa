/** The delegator side of `parachain-staking`: state, and every call as a function of the state.

    A call that fails leaves the state as it was: extrinsics are transactional. The candidate side
    is reduced to the set of candidates; its own bookkeeping always succeeds. */
module Staking {
  import opened Integers
  import opened Xcm
  import opened SortedRows

  type Account = nat

  // ---------- State ----------

  // A bond: the key is the owner (the candidate), the value the amount.
  type Bond = Row<nat>

  datatype Delegator = Delegator(id: Account, delegations: seq<Bond>, total: nat, lessTotal: nat)

  datatype DelegationAction = Revoke(amount: nat) | Decrease(amount: nat)

  datatype ScheduledRequest = ScheduledRequest(delegator: Account, whenExecutable: nat, action: DelegationAction)

  type Requests = map<Account, seq<ScheduledRequest>>

  // Auto-compound settings of one candidate: the key is the delegator, the value the percentage.
  type AutoCompounds = map<Account, seq<Row<nat>>>

  datatype Config = Config(
    minDelegation: nat,
    revokeDelay: nat,
    bondLessDelay: nat,
    maxDelegationsPerDelegator: nat,
    maxDelegationsPerCandidate: nat)

  datatype State = State(
    delegators: map<Account, Delegator>,
    requests: Requests,
    autoCompounds: AutoCompounds,
    candidates: set<Account>,
    funds: map<Account, nat>,
    round: nat)

  datatype Error =
    | DelegatorDNE
    | CandidateDNE
    | CandidateExists
    | CandidateNotLeaving
    | CandidateCannotLeaveYet
    | CannotDelegateLessThanOrEqualToLowestBottomWhenFull
    | DelegationDNE
    | DelegationBelowMin
    | DelegatorBondBelowMin
    | InsufficientBalance
    | AlreadyDelegatedCandidate
    | ExceedMaxDelegationsPerDelegator
    | PendingDelegationRequestAlreadyExists
    | PendingDelegationRequestDNE
    | PendingDelegationRequestNotDueYet
    | PendingDelegationRevoke
    | TooLowDelegationCountToDelegate
    | TooLowCandidateDelegationCountToDelegate
    | TooLowCandidateAutoCompoundingDelegationCountToDelegate
    | TooLowDelegationCountToAutoCompound
    | TooLowCandidateAutoCompoundingDelegationCountToAutoCompound

  type Outcome = Result<(), Error>

  // Storage maps with `ValueQuery`: a missing list is an empty one.
  function RequestsFor(requests: Requests, collator: Account): seq<ScheduledRequest> {
    if collator in requests then requests[collator] else []
  }

  function AutoCompoundFor(autoCompounds: AutoCompounds, candidate: Account): seq<Row<nat>> {
    if candidate in autoCompounds then autoCompounds[candidate] else []
  }

  // ---------- Lists of requests ----------

  function RequestOf(list: seq<ScheduledRequest>, delegator: Account): Option<ScheduledRequest> {
    if list == [] then None
    else if list[0].delegator == delegator then Some(list[0])
    else RequestOf(list[1..], delegator)
  }

  /** The list without the first request of `delegator`. */
  function WithoutRequest(list: seq<ScheduledRequest>, delegator: Account): seq<ScheduledRequest> {
    if list == [] then []
    else if list[0].delegator == delegator then list[1..]
    else [list[0]] + WithoutRequest(list[1..], delegator)
  }

  // ---------- Queries ----------

  function Bonded(s: State, delegator: Account, candidate: Account): Option<nat> {
    if delegator in s.delegators then Lookup(s.delegators[delegator].delegations, candidate) else None
  }

  function Requested(s: State, collator: Account, delegator: Account): Option<ScheduledRequest> {
    RequestOf(RequestsFor(s.requests, collator), delegator)
  }

  function AutoCompound(s: State, candidate: Account, delegator: Account): nat {
    Lookup(AutoCompoundFor(s.autoCompounds, candidate), delegator).GetOr(0)
  }

  function StakableBalance(s: State, account: Account): nat {
    var funds := Amount(s.funds, account);
    if account in s.delegators then SaturatingSub(funds, s.delegators[account].total) else funds
  }

  function RevokeRequested(s: State, collator: Account, delegator: Account): bool {
    exists i :: 0 <= i < |RequestsFor(s.requests, collator)| &&
      var r := RequestsFor(s.requests, collator)[i];
      r.delegator == delegator && r.action.Revoke?
  }

  // ---------- Delegator records (`types.rs`) ----------

  function RmDelegation(d: Delegator, candidate: Account): Delegator {
    match Lookup(d.delegations, candidate)
    case None => d
    case Some(amount) =>
      d.(delegations := Drop(d.delegations, candidate), total := SaturatingSub(d.total, amount))
  }

  function LessPending(d: Delegator, amount: nat): Delegator {
    d.(lessTotal := SaturatingSub(d.lessTotal, amount))
  }

  // ---------- Scheduling and cancelling ----------

  function Push(s: State, collator: Account, d: Delegator, request: ScheduledRequest): State {
    s.(requests := s.requests[collator := RequestsFor(s.requests, collator) + [request]],
       delegators := s.delegators[request.delegator :=
         d.(lessTotal := SaturatingAdd(d.lessTotal, request.action.amount, U128_MAX))])
  }

  function ScheduleRevoke(cfg: Config, s: State, collator: Account, delegator: Account): (State, Outcome) {
    if delegator !in s.delegators then (s, Err(DelegatorDNE))
    else if Requested(s, collator, delegator).Some? then (s, Err(PendingDelegationRequestAlreadyExists))
    else
      var d := s.delegators[delegator];
      match Lookup(d.delegations, collator)
      case None => (s, Err(DelegationDNE))
      case Some(bonded) =>
        if |RequestsFor(s.requests, collator)| >= cfg.maxDelegationsPerCandidate then
          (s, Err(ExceedMaxDelegationsPerDelegator))
        else
          var due := SaturatingAdd(s.round, cfg.revokeDelay, U32_MAX);
          (Push(s, collator, d, ScheduledRequest(delegator, due, Revoke(bonded))), Ok(()))
  }

  function ScheduleDecrease(cfg: Config, s: State, collator: Account, delegator: Account, less: nat): (State, Outcome) {
    if delegator !in s.delegators then (s, Err(DelegatorDNE))
    else if Requested(s, collator, delegator).Some? then (s, Err(PendingDelegationRequestAlreadyExists))
    else
      var d := s.delegators[delegator];
      match Lookup<nat>(d.delegations, collator)
      case None => (s, Err(DelegationDNE))
      case Some(bonded) =>
        if bonded <= less then (s, Err(DelegatorBondBelowMin))
        else if bonded - less < cfg.minDelegation then (s, Err(DelegationBelowMin))
        else if less > SaturatingSub(SaturatingSub(d.total, d.lessTotal), cfg.minDelegation) then
          (s, Err(DelegatorBondBelowMin))
        else if |RequestsFor(s.requests, collator)| >= cfg.maxDelegationsPerCandidate then
          (s, Err(ExceedMaxDelegationsPerDelegator))
        else
          var due := SaturatingAdd(s.round, cfg.bondLessDelay, U32_MAX);
          (Push(s, collator, d, ScheduledRequest(delegator, due, Decrease(less))), Ok(()))
  }

  function CancelRequest(s: State, collator: Account, delegator: Account): (State, Outcome) {
    if delegator !in s.delegators then (s, Err(DelegatorDNE))
    else
      match Requested(s, collator, delegator)
      case None => (s, Err(PendingDelegationRequestDNE))
      case Some(request) =>
        (s.(requests := s.requests[collator := WithoutRequest(RequestsFor(s.requests, collator), delegator)],
            delegators := s.delegators[delegator := LessPending(s.delegators[delegator], request.action.amount)]),
         Ok(()))
  }

  // ---------- Executing ----------

  function RemoveAutoCompound(autoCompounds: AutoCompounds, candidate: Account, delegator: Account): AutoCompounds {
    var rows := AutoCompoundFor(autoCompounds, candidate);
    if Lookup(rows, delegator).Some? then autoCompounds[candidate := Drop(rows, delegator)] else autoCompounds
  }

  function Execute(cfg: Config, s: State, collator: Account, delegator: Account): (State, Outcome) {
    if delegator !in s.delegators then (s, Err(DelegatorDNE))
    else
      match Requested(s, collator, delegator)
      case None => (s, Err(PendingDelegationRequestDNE))
      case Some(request) =>
        if request.whenExecutable > s.round then (s, Err(PendingDelegationRequestNotDueYet))
        else
          match request.action
          case Revoke(amount) => ExecuteRevoke(cfg, s, collator, delegator, amount)
          case Decrease(amount) => ExecuteDecrease(cfg, s, collator, delegator, amount)
  }

  function ExecuteRevoke(cfg: Config, s: State, collator: Account, delegator: Account, amount: nat): (State, Outcome)
    requires delegator in s.delegators
  {
    var d := s.delegators[delegator];
    var leaving := |d.delegations| == 1;
    if !leaving && SaturatingSub(d.total, cfg.minDelegation) < amount then (s, Err(DelegatorBondBelowMin))
    else if collator !in s.candidates then (s, Err(CandidateDNE))
    else
      var next := RmDelegation(LessPending(d, amount), collator);
      (s.(requests := s.requests[collator := WithoutRequest(RequestsFor(s.requests, collator), delegator)],
          delegators := if leaving then s.delegators - {delegator} else s.delegators[delegator := next],
          autoCompounds := RemoveAutoCompound(s.autoCompounds, collator, delegator)),
       Ok(()))
  }

  function ExecuteDecrease(cfg: Config, s: State, collator: Account, delegator: Account, amount: nat): (State, Outcome)
    requires delegator in s.delegators
  {
    var d := s.delegators[delegator];
    match Lookup<nat>(d.delegations, collator)
    case None => (s, Err(DelegationDNE))
    case Some(bonded) =>
      if bonded <= amount then (s, Err(DelegationBelowMin))
      else if collator !in s.candidates then (s, Err(CandidateDNE))
      else if SaturatingSub(d.total, amount) < cfg.minDelegation then (s, Err(DelegationBelowMin))
      else
        var left: nat := bonded - amount;
        var next := LessPending(d, amount).(
          delegations := Put(d.delegations, collator, left),
          total := SaturatingSub(d.total, amount));
        (s.(requests := s.requests[collator := WithoutRequest(RequestsFor(s.requests, collator), delegator)],
            delegators := s.delegators[delegator := next]),
         Ok(()))
  }

  // ---------- Delegating, bonding more, auto-compounding ----------

  function DelegatorAfterBond(s: State, candidate: Account, delegator: Account, amount: nat): Delegator {
    if delegator in s.delegators then
      var d := s.delegators[delegator];
      d.(delegations := Put(d.delegations, candidate, amount), total := SaturatingAdd(d.total, amount, U128_MAX))
    else Delegator(delegator, [Row(candidate, amount)], amount, 0)
  }

  /** What the candidate's own bookkeeping makes of a new delegation: it refuses it, takes it, or takes it in
      place of the lowest bottom delegation, which is kicked. */
  datatype Admission = Refused | Admitted | AdmittedKicking(lowest: Account)

  datatype CandidateSide = CandidateSide(delegationCount: nat, admission: Admission)

  datatype Hints = Hints(candidateDelegations: nat, autoCompounding: nat, delegations: nat)

  /** The checks before the candidate is asked, in their order. */
  function DelegateRefusal(cfg: Config, s: State, candidate: Account, delegator: Account, amount: nat, percent: nat,
                           hints: Hints, delegationCount: nat): Option<Error>
  {
    if StakableBalance(s, delegator) < amount then Some(InsufficientBalance)
    else if amount < cfg.minDelegation then Some(DelegationBelowMin)
    else if delegator in s.delegators && hints.delegations < |s.delegators[delegator].delegations| then
      Some(TooLowDelegationCountToDelegate)
    else if delegator in s.delegators && |s.delegators[delegator].delegations| >= cfg.maxDelegationsPerDelegator then
      Some(ExceedMaxDelegationsPerDelegator)
    else if Bonded(s, delegator, candidate).Some? then Some(AlreadyDelegatedCandidate)
    else if delegator !in s.delegators && delegator in s.candidates then Some(CandidateExists)
    else if candidate !in s.candidates then Some(CandidateDNE)
    else if hints.candidateDelegations < delegationCount then Some(TooLowCandidateDelegationCountToDelegate)
    else if percent != 0 && |AutoCompoundFor(s.autoCompounds, candidate)| > hints.autoCompounding then
      Some(TooLowCandidateAutoCompoundingDelegationCountToDelegate)
    else None
  }

  /** The state once the candidate has made room. */
  function MadeRoom(s: State, candidate: Account, admission: Admission): State {
    match admission
    case AdmittedKicking(lowest) => if lowest in s.delegators then Kick(s, candidate, lowest) else s
    case _ => s
  }

  /** The delegator's record and its setting are stored. */
  function Settle(cfg: Config, s: State, candidate: Account, record: Delegator, delegator: Account, percent: nat)
    : (State, Outcome)
  {
    var rows := AutoCompoundFor(s.autoCompounds, candidate);
    if percent != 0 && Lookup(rows, delegator).None? && |rows| >= cfg.maxDelegationsPerCandidate then
      (s, Err(ExceedMaxDelegationsPerDelegator))
    else
      (s.(delegators := s.delegators[delegator := record],
          autoCompounds := if percent == 0 then s.autoCompounds
                           else s.autoCompounds[candidate := Put(rows, delegator, percent)]),
       Ok(()))
  }

  function Delegate(cfg: Config, s: State, candidate: Account, delegator: Account, amount: nat, percent: nat,
                    hints: Hints, side: CandidateSide): (State, Outcome)
  {
    match DelegateRefusal(cfg, s, candidate, delegator, amount, percent, hints, side.delegationCount)
    case Some(e) => (s, Err(e))
    case None =>
      if side.admission.Refused? then (s, Err(CannotDelegateLessThanOrEqualToLowestBottomWhenFull))
      else
        var record := DelegatorAfterBond(s, candidate, delegator, amount);
        var (t, r) := Settle(cfg, MadeRoom(s, candidate, side.admission), candidate, record, delegator, percent);
        (if r.Ok? then t else s, r)
  }

  function BondMore(s: State, candidate: Account, delegator: Account, more: nat): (State, Outcome) {
    if delegator !in s.delegators then (s, Err(DelegatorDNE))
    else if RevokeRequested(s, candidate, delegator) then (s, Err(PendingDelegationRevoke))
    else
      var d := s.delegators[delegator];
      match Lookup(d.delegations, candidate)
      case None => (s, Err(DelegationDNE))
      case Some(bonded) =>
        if StakableBalance(s, delegator) < more then (s, Err(InsufficientBalance))
        else if candidate !in s.candidates then (s, Err(CandidateDNE))
        else
          (s.(delegators := s.delegators[delegator := d.(
             delegations := Put(d.delegations, candidate, SaturatingAdd(bonded, more, U128_MAX)),
             total := SaturatingAdd(d.total, more, U128_MAX))]),
           Ok(()))
  }

  function SetAutoCompound(cfg: Config, s: State, candidate: Account, delegator: Account, value: nat,
                           autoHint: nat, delegationHint: nat): (State, Outcome)
  {
    var rows := AutoCompoundFor(s.autoCompounds, candidate);
    if delegator !in s.delegators then (s, Err(DelegatorDNE))
    else if |s.delegators[delegator].delegations| > delegationHint then (s, Err(TooLowDelegationCountToAutoCompound))
    else if Bonded(s, delegator, candidate).None? then (s, Err(DelegationDNE))
    else if |rows| > autoHint then (s, Err(TooLowCandidateAutoCompoundingDelegationCountToAutoCompound))
    else if value == 0 then (s.(autoCompounds := RemoveAutoCompound(s.autoCompounds, candidate, delegator)), Ok(()))
    else if Lookup(rows, delegator).None? && |rows| >= cfg.maxDelegationsPerCandidate then
      (s, Err(ExceedMaxDelegationsPerDelegator))
    else (s.(autoCompounds := s.autoCompounds[candidate := Put(rows, delegator, value)]), Ok(()))
  }

  // ---------- Delegations ended by the candidate side ----------

  /** `delegation_remove_request_with_state`. */
  function RemoveRequestWithState(s: State, collator: Account, delegator: Account, d: Delegator)
    : (Requests, Delegator)
  {
    match Requested(s, collator, delegator)
    case None => (s.requests, d)
    case Some(request) =>
      (s.requests[collator := WithoutRequest(RequestsFor(s.requests, collator), delegator)],
       LessPending(d, request.action.amount))
  }

  /** A delegation dropped by the candidate: `leaving` says whether the delegator record goes too. */
  function EndDelegation(s: State, candidate: Account, delegator: Account, leaving: bool): State
    requires delegator in s.delegators
  {
    var (requests, next) :=
      RemoveRequestWithState(s, candidate, delegator, RmDelegation(s.delegators[delegator], candidate));
    s.(requests := requests,
       delegators := if leaving then s.delegators - {delegator} else s.delegators[delegator := next],
       autoCompounds := RemoveAutoCompound(s.autoCompounds, candidate, delegator))
  }

  /** The lowest bottom delegation is kicked: the delegator leaves if it had one delegation. */
  function Kick(s: State, candidate: Account, delegator: Account): State
    requires delegator in s.delegators
  {
    EndDelegation(s, candidate, delegator, |s.delegators[delegator].delegations| == 1)
  }

  /** A candidate returns one stake on leaving: the delegator leaves if nothing remains bonded. */
  function ReturnStake(s: State, candidate: Account, delegator: Account): State
    requires delegator in s.delegators
  {
    EndDelegation(s, candidate, delegator, RmDelegation(s.delegators[delegator], candidate).total == 0)
  }

  function ReturnAll(s: State, c: Account, owners: seq<Account>): State
    decreases |owners|
  {
    if owners == [] then s
    else if Bonded(s, owners[0], c).None? then ReturnAll(s, c, owners[1..])
    else ReturnAll(ReturnStake(s, c, owners[0]), c, owners[1..])
  }

  /** Return every stake, then clear the candidate's storage. */
  function LeaveCandidate(s: State, c: Account, owners: seq<Account>): State {
    var t := ReturnAll(s, c, owners);
    t.(requests := t.requests - {c}, autoCompounds := t.autoCompounds - {c}, candidates := t.candidates - {c})
  }

  /** `execute_leave_candidates_inner`. `leaving` is the round from which a candidate that is leaving may go,
      `owners` are those of its top delegations, then of its bottom ones. */
  function ExecuteLeave(s: State, c: Account, leaving: Option<nat>, owners: seq<Account>): (State, Outcome) {
    if c !in s.candidates then (s, Err(CandidateDNE))
    else
      match leaving
      case None => (s, Err(CandidateNotLeaving))
      case Some(when) =>
        if s.round < when then (s, Err(CandidateCannotLeaveYet))
        else (LeaveCandidate(s, c, owners), Ok(()))
  }
}
