/** Per-round records: what a rotation writes, who is paid from it, and how long it is kept. */
module OrbitersRecords {
  import opened Integers
  import opened Xcm
  import opened CollatorPools
  import opened Orbiters
  import opened OrbitersRotation
  import opened OrbitersRuns
  import opened OrbitersExclusivity

  // ---------- What a rotation writes ----------

  lemma CoversExactly(cfg: Config, round: nat, r: nat)
    requires round <= ROUND_MAX
    ensures Covers(cfg, round, r) <==> round <= r < round + cfg.rotatePeriod && r <= ROUND_MAX
  {
    if round <= r < round + cfg.rotatePeriod && r <= ROUND_MAX {
      assert r == SaturatingAdd(round, r - round, ROUND_MAX);
    }
  }

  /** A rotation at `round` that selects an orbiter records it for the next `rotatePeriod` rounds, or up to the
      largest round when that comes first, and leaves every other record as it was. */
  lemma RotationFillsExactly(cfg: Config, s: State, round: nat, order: seq<Account>, c: Account, r: nat)
    requires Visits(s, order) && c in s.pools && round <= ROUND_MAX
    ensures OrbiterAt(OnRotate(cfg, s, round, order), r, c)
         == if round <= r < round + cfg.rotatePeriod && r <= ROUND_MAX && s.pools[c].orbiters != []
            then Some(Turns(s.pools[c])[0]) else OrbiterAt(s, r, c)
  {
    RotationInClosedForm(cfg, s, round, order);
    CoversExactly(cfg, round, r);
    if s.pools[c].orbiters != [] {
      RotateServesHead(s.pools[c]);
    }
  }

  /** A block initialisation removes the records of one past round, and nothing else. */
  lemma InitialisationPrunesExactly(cfg: Config, s: State, r: nat, c: Account)
    ensures var t := OnInitialize(cfg, s);
            && t == s.(perRound := t.perRound)
            && OrbiterAt(t, r, c) == if r + cfg.maxRoundArchive == s.currentRound then None else OrbiterAt(s, r, c)
  {
  }

  /** A payment takes exactly the record it pays from. */
  lemma PaymentTakesExactly(s: State, round: nat, collator: Account, amount: nat, r: nat, c: Account)
    ensures var (t, paid) := DistributeRewards(s, round, collator, amount);
            && OrbiterAt(t, r, c) == (if r == round && c == collator then None else OrbiterAt(s, r, c))
            && paid == (if OrbiterAt(s, round, collator).Some? && OrbiterAt(s, round, collator).value in s.free
                        then OrbiterAt(s, round, collator) else None)
            && (forall a: Account :: Amount(t.free, a) == Amount(s.free, a) + if paid == Some(a) then amount else 0)
            && (paid.None? ==> t.free == s.free)
            && t == s.(perRound := t.perRound, free := t.free)
  {
  }

  // ---------- Payments ----------

  /** The orbiter a call records for a round and a collator, if it records one. */
  function Recorded(cfg: Config, s: State, call: Call, r: nat, c: Account): Option<Account>
    requires cfg.rotatePeriod > 0
  {
    if call.NewRound? && Rotates(cfg, s, call.round) then Selected(cfg, s, call.round, r, c) else None
  }

  /** The orbiter recorded last over a run, starting from what was recorded before it. */
  function LastRecorded(cfg: Config, s: State, calls: seq<Call>, r: nat, c: Account,
                        before: Option<Account>): Option<Account>
    requires cfg.rotatePeriod > 0
    decreases |calls|
  {
    if calls == [] then before
    else LastRecorded(cfg, Apply(cfg, s, calls[0]), calls[1..], r, c, Recorded(cfg, s, calls[0], r, c).Or(before))
  }

  function Paid(s: State, call: Call, r: nat, c: Account): seq<Account> {
    if call.RewardsDistributed? && call.round == r && call.collator == c
    then match DistributeRewards(s, r, c, call.amount).1 case Some(o) => [o] case None => []
    else []
  }

  /** Everybody paid for a round and a collator over a run, in order. */
  function Payouts(cfg: Config, s: State, calls: seq<Call>, r: nat, c: Account): seq<Account>
    requires cfg.rotatePeriod > 0
    decreases |calls|
  {
    if calls == [] then [] else Paid(s, calls[0], r, c) + Payouts(cfg, Apply(cfg, s, calls[0]), calls[1..], r, c)
  }

  /** Rounds never go back, and rewards are for rounds that are over. */
  ghost predicate InTime(s: State, call: Call) {
    && WellFormed(s, call)
    && (call.NewRound? ==> s.currentRound <= call.round <= ROUND_MAX)
    && (call.RewardsDistributed? ==> call.round < s.currentRound)
  }

  ghost predicate TimelyRun(cfg: Config, s: State, calls: seq<Call>)
    requires cfg.rotatePeriod > 0
    decreases |calls|
  {
    calls == [] || (InTime(s, calls[0]) && TimelyRun(cfg, Apply(cfg, s, calls[0]), calls[1..]))
  }

  lemma RotatedRecord(cfg: Config, s: State, round: nat, order: seq<Account>, r: nat, c: Account)
    requires cfg.rotatePeriod > 0 && Visits(s, order)
    ensures OnNewRound(cfg, s, round, order).currentRound == round
    ensures OrbiterAt(OnNewRound(cfg, s, round, order), r, c)
         == Recorded(cfg, s, NewRound(round, order), r, c).Or(OrbiterAt(s, r, c))
  {
    var u := s.(currentRound := round, forceRotation := false);
    if Rotates(cfg, s, round) {
      assert Visits(u, order);
      RotationInClosedForm(cfg, u, round, order);
      assert Selected(cfg, u, round, r, c) == Selected(cfg, s, round, r, c);
      assert OrbiterAt(OnRotate(cfg, u, round, order), r, c)
          == if c in order && Selected(cfg, u, round, r, c).Some? then Selected(cfg, u, round, r, c)
             else OrbiterAt(u, r, c);
    }
  }

  lemma RecordsUntouched(cfg: Config, s: State, call: Call)
    requires cfg.rotatePeriod > 0
    requires !call.NewRound? && !call.BlockInitialized? && !call.RewardsDistributed?
    ensures Apply(cfg, s, call).perRound == s.perRound && Apply(cfg, s, call).currentRound == s.currentRound
  {
    if MovesBalances(call) {
      BalanceCallsMoveBalances(cfg, s, call);
    }
  }

  /** A collator has an active orbiter for a round after a new round began exactly when the rotation of that
      round selected one for it, or when it had one already. */
  lemma ActiveOrbiterExactly(cfg: Config, s: State, round: nat, order: seq<Account>, r: nat, c: Account)
    requires cfg.rotatePeriod > 0 && Visits(s, order) && round <= ROUND_MAX
    ensures OrbiterAt(OnNewRound(cfg, s, round, order), r, c).Some?
       <==> || OrbiterAt(s, r, c).Some?
            || ((s.forceRotation || round % cfg.rotatePeriod == 0) && c in s.pools && s.pools[c].orbiters != []
                && round <= r < round + cfg.rotatePeriod && r <= ROUND_MAX)
  {
    RotatedRecord(cfg, s, round, order, r, c);
    CoversExactly(cfg, round, r);
  }

  /** The record after one call: what the call records, or what was there, unless a payment took it or an
      initialisation pruned it. */
  function RecordAfter(cfg: Config, s: State, call: Call, r: nat, c: Account): Option<Account>
    requires cfg.rotatePeriod > 0
  {
    match call
    case NewRound(_, _) => Recorded(cfg, s, call, r, c).Or(OrbiterAt(s, r, c))
    case BlockInitialized => if r + cfg.maxRoundArchive == s.currentRound then None else OrbiterAt(s, r, c)
    case RewardsDistributed(round, k, _) => if r == round && c == k then None else OrbiterAt(s, r, c)
    case _ => OrbiterAt(s, r, c)
  }

  lemma RecordsChangeExactly(cfg: Config, s: State, call: Call, r: nat, c: Account)
    requires cfg.rotatePeriod > 0 && WellFormed(s, call)
    ensures OrbiterAt(Apply(cfg, s, call), r, c) == RecordAfter(cfg, s, call, r, c)
    ensures Apply(cfg, s, call).currentRound == if call.NewRound? then call.round else s.currentRound
  {
    match call
    case NewRound(round, order) => RotatedRecord(cfg, s, round, order, r, c);
    case BlockInitialized => InitialisationPrunesExactly(cfg, s, r, c);
    case RewardsDistributed(round, k, amount) => PaymentTakesExactly(s, round, k, amount, r, c);
    case _ => RecordsUntouched(cfg, s, call);
  }

  /** One call: records are written only by rotations, and only for rounds not yet over. */
  lemma RecordStep(cfg: Config, s: State, call: Call, r: nat, c: Account)
    requires cfg.rotatePeriod > 0 && InTime(s, call)
    ensures var t := Apply(cfg, s, call); var rec := Recorded(cfg, s, call, r, c);
            && t.currentRound >= s.currentRound
            && (r < s.currentRound ==> rec == None)
            && (rec.Some? ==> OrbiterAt(t, r, c) == rec)
            && (rec.None? ==> OrbiterAt(t, r, c) == None || OrbiterAt(t, r, c) == OrbiterAt(s, r, c))
  {
    RecordsChangeExactly(cfg, s, call, r, c);
    if call.NewRound? {
      CoversExactly(cfg, call.round, r);
    }
  }

  lemma PaymentTakesRecord(cfg: Config, s: State, call: Call, r: nat, c: Account)
    requires cfg.rotatePeriod > 0 && InTime(s, call)
    ensures Paid(s, call, r, c) != [] ==>
              && r < s.currentRound && OrbiterAt(s, r, c).Some? && Paid(s, call, r, c) == [OrbiterAt(s, r, c).value]
              && OrbiterAt(Apply(cfg, s, call), r, c) == None
  {
    if call.RewardsDistributed? {
      PaymentTakesExactly(s, call.round, call.collator, call.amount, r, c);
    }
  }

  lemma {:induction false} PayoutsFollowRecords(cfg: Config, s: State, calls: seq<Call>, r: nat, c: Account,
                                                before: Option<Account>)
    requires cfg.rotatePeriod > 0 && TimelyRun(cfg, s, calls)
    requires OrbiterAt(s, r, c).Some? ==> OrbiterAt(s, r, c) == before
    ensures r < s.currentRound ==> LastRecorded(cfg, s, calls, r, c, before) == before
    ensures r < s.currentRound && OrbiterAt(s, r, c) == None ==> Payouts(cfg, s, calls, r, c) == []
    ensures Payouts(cfg, s, calls, r, c) == [] ||
            (LastRecorded(cfg, s, calls, r, c, before).Some? &&
             Payouts(cfg, s, calls, r, c) == [LastRecorded(cfg, s, calls, r, c, before).value])
    decreases |calls|
  {
    if calls != [] {
      RecordStep(cfg, s, calls[0], r, c);
      PaymentTakesRecord(cfg, s, calls[0], r, c);
      PayoutsFollowRecords(cfg, Apply(cfg, s, calls[0]), calls[1..], r, c, Recorded(cfg, s, calls[0], r, c).Or(before));
    }
  }

  /** Over any run each round of each collator is paid at most once, and only to the orbiter recorded by
      the last rotation that wrote that round. */
  lemma PaidAtMostOnce(cfg: Config, minDeposit: nat, calls: seq<Call>, r: nat, c: Account)
    requires cfg.rotatePeriod > 0 && TimelyRun(cfg, Genesis(minDeposit), calls)
    ensures var payouts := Payouts(cfg, Genesis(minDeposit), calls, r, c);
            var last := LastRecorded(cfg, Genesis(minDeposit), calls, r, c, None);
            payouts == [] || (last.Some? && payouts == [last.value])
  {
    PayoutsFollowRecords(cfg, Genesis(minDeposit), calls, r, c, None);
  }

  // ---------- The account that authors is the account recorded ----------

  /** No rotation falls due in the rounds after `from` up to `r`. */
  ghost predicate SameTurn(cfg: Config, from: nat, r: nat)
    requires cfg.rotatePeriod > 0
  {
    from <= r && forall m :: from < m <= r ==> m % cfg.rotatePeriod != 0
  }

  lemma TurnIsShort(cfg: Config, from: nat, r: nat)
    requires cfg.rotatePeriod > 0 && SameTurn(cfg, from, r)
    ensures r < from + cfg.rotatePeriod
  {
    var p := cfg.rotatePeriod;
    var next := (from / p + 1) * p;
    assert next % p == 0 && from < next <= from + p by {
      MultipleAhead(from, p);
    }
  }

  lemma MultipleAhead(from: nat, p: nat)
    requires p > 0
    ensures ((from / p + 1) * p) % p == 0 && from < (from / p + 1) * p <= from + p
  {
    var q := from / p;
    assert from == p * q + from % p;
    assert (q + 1) * p == p * (q + 1) == p * q + p;
    RemainderIsUnique((q + 1) * p, p, q + 1, 0);
  }

  lemma RemainderIsUnique(m: nat, p: nat, q: int, t: nat)
    requires p > 0 && m == p * q + t && t < p
    ensures m % p == t
  {
    var d := q - m / p;
    assert p * d == p * q - p * (m / p);
    assert p * d == m % p - t;
    ProductIsFar(p, d);
  }

  lemma ProductIsFar(p: nat, d: int)
    requires p > 0
    ensures d > 0 ==> p * d >= p
    ensures d < 0 ==> p * d <= 0 - p
  {
  }

  /** A collator forbidden to author has a current orbiter, recorded for every round up to the next rotation. */
  ghost predicate ServedRecorded(cfg: Config, s: State)
    requires cfg.rotatePeriod > 0
  {
    forall c: Account :: Override(s, c) == Some(None) ==>
      Current(s, c).Some? && RecordedForTurn(cfg, s, c, Current(s, c).value.account)
  }

  ghost predicate RecordedForTurn(cfg: Config, s: State, c: Account, o: Account)
    requires cfg.rotatePeriod > 0
  {
    forall r: nat :: r <= ROUND_MAX && SameTurn(cfg, s.currentRound, r) ==> OrbiterAt(s, r, c) == Some(o)
  }

  /** Consecutive rounds. */
  ghost predicate Consecutive(s: State, call: Call) {
    InTime(s, call) && (call.NewRound? ==> call.round == s.currentRound + 1 || s.perRound == map[])
  }

  ghost predicate ConsecutiveRun(cfg: Config, s: State, calls: seq<Call>)
    requires cfg.rotatePeriod > 0
    decreases |calls|
  {
    calls == [] || (Consecutive(s, calls[0]) && ConsecutiveRun(cfg, Apply(cfg, s, calls[0]), calls[1..]))
  }

  /** The collator's own visit decides whether the collator is forbidden. */
  lemma ForbiddenByOwnVisit(cfg: Config, s: State, round: nat, order: seq<Account>, c: Account)
    requires Visits(s, order) && (Override(s, c) == Some(None) ==> c in s.pools)
    requires Override(OnRotate(cfg, s, round, order), c) == Some(None)
    ensures c in s.pools && NextOrbiter(s.pools[c]).Some?
  {
    RotationInClosedForm(cfg, s, round, order);
    LastWriteIsSome(s.pools, order, c);
    var w := LastWrite(s.pools, order, c);
    if w == Put(None) {
      var k :| k in order && NetWrite(s.pools[k], k, c) == Put(None);
    }
  }

  lemma RotationRecordsServed(cfg: Config, s: State, round: nat, order: seq<Account>)
    requires cfg.rotatePeriod > 0 && Visits(s, order) && round <= ROUND_MAX && s.currentRound == round
    requires forall c: Account :: Override(s, c) == Some(None) ==> c in s.pools
    ensures ServedRecorded(cfg, OnRotate(cfg, s, round, order))
  {
    var t := OnRotate(cfg, s, round, order);
    RotationInClosedForm(cfg, s, round, order);
    forall c: Account | Override(t, c) == Some(None)
      ensures Current(t, c).Some? && RecordedForTurn(cfg, t, c, Current(t, c).value.account)
    {
      ForbiddenByOwnVisit(cfg, s, round, order, c);
      forall r: nat | r <= ROUND_MAX && SameTurn(cfg, round, r)
        ensures OrbiterAt(t, r, c) == NextOrbiter(s.pools[c])
      {
        TurnIsShort(cfg, round, r);
        assert r == SaturatingAdd(round, r - round, ROUND_MAX);
        assert Selected(cfg, s, round, r, c) == NextOrbiter(s.pools[c]);
      }
    }
  }

  lemma NewRoundRecordsServed(cfg: Config, s: State, round: nat, order: seq<Account>)
    requires cfg.rotatePeriod > 0 && ServedRecorded(cfg, s) && Consecutive(s, NewRound(round, order))
    ensures ServedRecorded(cfg, OnNewRound(cfg, s, round, order))
  {
    var u := s.(currentRound := round);
    forall a ensures Override(u, a) == Override(s, a) {}
    if Rotates(cfg, s, round) {
      var v := u.(forceRotation := false);
      forall a ensures Override(v, a) == Override(s, a) {}
      RotationRecordsServed(cfg, v, round, order);
    } else {
      forall c: Account | Override(u, c) == Some(None)
        ensures Current(u, c).Some? && RecordedForTurn(cfg, u, c, Current(u, c).value.account)
      {
        NextRoundSameTurn(cfg, s, u, c, Current(s, c).value.account);
      }
    }
  }

  lemma NextRoundSameTurn(cfg: Config, s: State, u: State, c: Account, o: Account)
    requires cfg.rotatePeriod > 0 && s.currentRound <= ROUND_MAX && RecordedForTurn(cfg, s, c, o)
    requires u.perRound == s.perRound && u.currentRound % cfg.rotatePeriod != 0
    requires u.currentRound == s.currentRound + 1 || s.perRound == map[]
    ensures RecordedForTurn(cfg, u, c, o)
  {
    assert SameTurn(cfg, s.currentRound, s.currentRound);
    assert OrbiterAt(s, s.currentRound, c) == Some(o);
    forall r: nat | r <= ROUND_MAX && SameTurn(cfg, u.currentRound, r) ensures OrbiterAt(u, r, c) == Some(o) {
      assert SameTurn(cfg, s.currentRound, r);
    }
  }

  /** Visits, payments for past rounds and pruning leave what the serving orbiters rest on alone. */
  lemma ServedUnaffected(cfg: Config, s: State, t: State)
    requires cfg.rotatePeriod > 0 && ServedRecorded(cfg, s) && t.currentRound == s.currentRound
    requires forall a: Account :: Override(t, a) == Some(None) ==> Override(s, a) == Some(None)
    requires forall c: Account :: Override(t, c) == Some(None) && Current(s, c).Some? ==>
               Current(t, c).Some? && Current(t, c).value.account == Current(s, c).value.account
    requires forall r: nat, c :: r >= s.currentRound ==> OrbiterAt(t, r, c) == OrbiterAt(s, r, c)
    ensures ServedRecorded(cfg, t)
  {
  }

  lemma PoolStepKeepsServed(cfg: Config, s: State, t: State)
    requires cfg.rotatePeriod > 0 && ServedRecorded(cfg, s)
    requires t == s.(pools := t.pools)
    requires forall c: Account :: Current(s, c).Some? ==>
               Current(t, c).Some? && Current(t, c).value.account == Current(s, c).value.account
    ensures ServedRecorded(cfg, t)
  {
  }

  lemma RemovalKeepsServed(cfg: Config, s: State, c: Account)
    requires cfg.rotatePeriod > 0 && ServedRecorded(cfg, s)
    ensures ServedRecorded(cfg, RemoveCollator(s, c).0)
  {
    var t := RemoveCollator(s, c).0;
    forall a: Account
      ensures Override(t, a) == Some(None) ==> Override(s, a) == Some(None) && (c in s.pools ==> a != c) {}
    forall r: nat, k | r >= s.currentRound ensures OrbiterAt(t, r, k) == OrbiterAt(s, r, k) {}
    ServedUnaffected(cfg, s, t);
  }

  lemma PoolChangesKeepServed(cfg: Config, s: State, call: Call)
    requires cfg.rotatePeriod > 0 && ServedRecorded(cfg, s)
    requires call.CollatorAdds? || call.OrbiterLeaves? || call.CollatorEnrolled? || call.CollatorRemoved?
    ensures ServedRecorded(cfg, Apply(cfg, s, call))
  {
    if call.CollatorRemoved? {
      RemovalKeepsServed(cfg, s, call.collator);
    } else {
      PoolCallsKeepCurrent(cfg, s, call);
      PoolStepKeepsServed(cfg, s, Apply(cfg, s, call));
    }
  }

  /** Neither pools nor rights change, and records go only for rounds before the current one. */
  ghost predicate Quiet(s: State, t: State) {
    && t.pools == s.pools && t.overrides == s.overrides && t.currentRound == s.currentRound
    && (forall k: (nat, Account) :: k.0 >= s.currentRound ==> (k in t.perRound <==> k in s.perRound))
    && (forall k: (nat, Account) :: k in t.perRound ==> k in s.perRound && t.perRound[k] == s.perRound[k])
  }

  lemma QuietKeepsServed(cfg: Config, s: State, t: State)
    requires cfg.rotatePeriod > 0 && ServedRecorded(cfg, s) && Quiet(s, t)
    ensures ServedRecorded(cfg, t)
  {
    forall a: Account ensures Override(t, a) == Override(s, a) && Current(t, a) == Current(s, a) {}
    forall r: nat, c | r >= s.currentRound ensures OrbiterAt(t, r, c) == OrbiterAt(s, r, c) {}
    ServedUnaffected(cfg, s, t);
  }

  lemma InitialisationIsQuiet(cfg: Config, s: State)
    requires cfg.maxRoundArchive > 0
    ensures Quiet(s, OnInitialize(cfg, s))
  {
  }

  lemma PaymentIsQuiet(s: State, round: nat, c: Account, amount: nat)
    requires round < s.currentRound
    ensures Quiet(s, DistributeRewards(s, round, c, amount).0)
  {
  }

  lemma BalanceCallsAreQuiet(cfg: Config, s: State, call: Call)
    requires cfg.rotatePeriod > 0 && MovesBalances(call)
    ensures Quiet(s, Apply(cfg, s, call)) && Apply(cfg, s, call).perRound == s.perRound
  {
    BalanceCallsMoveBalances(cfg, s, call);
  }

  lemma StepKeepsServed(cfg: Config, s: State, call: Call)
    requires cfg.rotatePeriod > 0 && cfg.maxRoundArchive > 0
    requires ServedRecorded(cfg, s) && Consecutive(s, call)
    ensures ServedRecorded(cfg, Apply(cfg, s, call))
  {
    if call.NewRound? {
      NewRoundRecordsServed(cfg, s, call.round, call.order);
    } else if call.CollatorAdds? || call.OrbiterLeaves? || call.CollatorEnrolled? || call.CollatorRemoved? {
      PoolChangesKeepServed(cfg, s, call);
    } else {
      if call.BlockInitialized? {
        InitialisationIsQuiet(cfg, s);
      } else if call.RewardsDistributed? {
        PaymentIsQuiet(s, call.round, call.collator, call.amount);
      } else {
        BalanceCallsAreQuiet(cfg, s, call);
      }
      QuietKeepsServed(cfg, s, Apply(cfg, s, call));
    }
  }

  lemma {:induction false} RunKeepsServed(cfg: Config, s: State, calls: seq<Call>)
    requires cfg.rotatePeriod > 0 && cfg.maxRoundArchive > 0
    requires s.currentRound <= ROUND_MAX && ServedRecorded(cfg, s) && ConsecutiveRun(cfg, s, calls)
    ensures ServedRecorded(cfg, Run(cfg, s, calls)) && Run(cfg, s, calls).currentRound <= ROUND_MAX
    decreases |calls|
  {
    if calls != [] {
      StepKeepsServed(cfg, s, calls[0]);
      RoundInRange(cfg, s, calls[0]);
      RunKeepsServed(cfg, Apply(cfg, s, calls[0]), calls[1..]);
    }
  }

  lemma RoundInRange(cfg: Config, s: State, call: Call)
    requires cfg.rotatePeriod > 0 && s.currentRound <= ROUND_MAX && InTime(s, call)
    ensures Apply(cfg, s, call).currentRound <= ROUND_MAX
  {
    if call.NewRound? {
      RotatedRecord(cfg, s, call.round, call.order, 0, 0);
    }
  }

  /** With rounds one after the other, whoever authors for a collator by an override is the account
      recorded to be paid for that collator in the current round. */
  lemma AuthorIsRecorded(cfg: Config, minDeposit: nat, calls: seq<Call>, a: Account, c: Account)
    requires cfg.rotatePeriod > 0 && cfg.maxRoundArchive > 0
    requires SafeRun(cfg, Genesis(minDeposit), calls) && ConsecutiveRun(cfg, Genesis(minDeposit), calls)
    ensures var s := Run(cfg, Genesis(minDeposit), calls);
            Override(s, a) == Some(Some(c)) ==> OrbiterAt(s, s.currentRound, c) == Some(a)
  {
    RunKeepsGranted(cfg, Genesis(minDeposit), calls);
    RunKeepsServed(cfg, Genesis(minDeposit), calls);
    var s := Run(cfg, Genesis(minDeposit), calls);
    if Override(s, a) == Some(Some(c)) {
      assert Override(s, c) == Some(None);
      assert SameTurn(cfg, s.currentRound, s.currentRound);
    }
  }

  // ---------- Records are kept for a bounded time ----------

  /** Records lie between the archive limit and the end of the turn; `initialised` tells whether a block
      of the current round has been initialised. */
  ghost predicate Window(cfg: Config, s: State, initialised: bool) {
    forall k :: k in s.perRound ==>
      && k.0 < s.currentRound + cfg.rotatePeriod
      && (if initialised then s.currentRound < k.0 + cfg.maxRoundArchive
          else s.currentRound <= k.0 + cfg.maxRoundArchive)
  }

  /** Rounds follow one another and every round has a block: it is initialised before the next begins. */
  ghost predicate Paced(s: State, call: Call, initialised: bool) {
    && WellFormed(s, call)
    && (call.NewRound? ==>
          call.round <= ROUND_MAX && (s.perRound == map[] || (initialised && call.round == s.currentRound + 1)))
  }

  function InitialisedAfter(call: Call, initialised: bool): bool {
    call.BlockInitialized? || (initialised && !call.NewRound?)
  }

  ghost predicate PacedRun(cfg: Config, s: State, calls: seq<Call>, initialised: bool)
    requires cfg.rotatePeriod > 0
    decreases |calls|
  {
    calls == [] ||
      (Paced(s, calls[0], initialised) &&
       PacedRun(cfg, Apply(cfg, s, calls[0]), calls[1..], InitialisedAfter(calls[0], initialised)))
  }

  lemma NewRoundKeepsWindow(cfg: Config, s: State, round: nat, order: seq<Account>, initialised: bool)
    requires cfg.rotatePeriod > 0 && Window(cfg, s, initialised) && Paced(s, NewRound(round, order), initialised)
    ensures Window(cfg, OnNewRound(cfg, s, round, order), false)
  {
    var t := OnNewRound(cfg, s, round, order);
    RotatedRecord(cfg, s, round, order, 0, 0);
    forall k | k in t.perRound
      ensures k.0 < t.currentRound + cfg.rotatePeriod && t.currentRound <= k.0 + cfg.maxRoundArchive
    {
      RotatedRecord(cfg, s, round, order, k.0, k.1);
      assert OrbiterAt(t, k.0, k.1).Some?;
      if Recorded(cfg, s, NewRound(round, order), k.0, k.1).Some? {
        CoversExactly(cfg, round, k.0);
      } else {
        assert k in s.perRound;
      }
    }
  }

  lemma InitialisationPrunes(cfg: Config, s: State, initialised: bool)
    requires Window(cfg, s, initialised)
    ensures Window(cfg, OnInitialize(cfg, s), true)
  {
  }

  lemma PaymentKeepsWindow(cfg: Config, s: State, round: nat, c: Account, amount: nat, initialised: bool)
    requires Window(cfg, s, initialised)
    ensures Window(cfg, DistributeRewards(s, round, c, amount).0, initialised)
  {
  }

  lemma StepKeepsWindow(cfg: Config, s: State, call: Call, initialised: bool)
    requires cfg.rotatePeriod > 0 && Window(cfg, s, initialised) && Paced(s, call, initialised)
    ensures Window(cfg, Apply(cfg, s, call), InitialisedAfter(call, initialised))
  {
    match call
    case NewRound(round, order) => NewRoundKeepsWindow(cfg, s, round, order, initialised);
    case BlockInitialized => InitialisationPrunes(cfg, s, initialised);
    case RewardsDistributed(r, c, amount) => PaymentKeepsWindow(cfg, s, r, c, amount, initialised);
    case _ => RecordsUntouched(cfg, s, call);
  }

  lemma {:induction false} RunKeepsWindow(cfg: Config, s: State, calls: seq<Call>, initialised: bool)
    requires cfg.rotatePeriod > 0 && Window(cfg, s, initialised) && PacedRun(cfg, s, calls, initialised)
    requires calls != [] && calls[|calls| - 1] == BlockInitialized
    ensures Window(cfg, Run(cfg, s, calls), true)
    decreases |calls|
  {
    StepKeepsWindow(cfg, s, calls[0], initialised);
    if |calls| > 1 {
      RunKeepsWindow(cfg, Apply(cfg, s, calls[0]), calls[1..], InitialisedAfter(calls[0], initialised));
    }
  }

  /** After every block initialisation, the stored records are for rounds strictly between the current
      round minus the archive length and the current round plus the rotation period. */
  lemma RecordsAreBounded(cfg: Config, minDeposit: nat, calls: seq<Call>, r: nat, c: Account)
    requires cfg.rotatePeriod > 0 && PacedRun(cfg, Genesis(minDeposit), calls, false)
    requires calls != [] && calls[|calls| - 1] == BlockInitialized
    ensures var s := Run(cfg, Genesis(minDeposit), calls);
            OrbiterAt(s, r, c).Some? ==>
              s.currentRound - cfg.maxRoundArchive < r < s.currentRound + cfg.rotatePeriod
  {
    RunKeepsWindow(cfg, Genesis(minDeposit), calls, false);
  }
}
