/** Runs from genesis that show what happens where a guard of the authority theorems is not kept. */
module OrbitersExamples {
  import opened Integers
  import opened Xcm
  import opened CollatorPools
  import opened Orbiters
  import opened OrbitersRotation
  import opened OrbitersRuns

  // ---------- Steps of a given run ----------

  /** After the first `i` calls the run is in state `s`, and those calls are well formed. */
  ghost predicate At(cfg: Config, g: State, calls: seq<Call>, i: nat, s: State)
    requires cfg.rotatePeriod > 0
  {
    i <= |calls| && s == Run(cfg, g, calls[..i]) && WellFormedRun(cfg, g, calls[..i])
  }

  lemma {:induction false} RunSnoc(cfg: Config, s: State, calls: seq<Call>, call: Call)
    requires cfg.rotatePeriod > 0
    ensures Run(cfg, s, calls + [call]) == Apply(cfg, Run(cfg, s, calls), call)
    ensures WellFormedRun(cfg, s, calls + [call])
       <==> WellFormedRun(cfg, s, calls) && WellFormed(Run(cfg, s, calls), call)
    decreases |calls|
  {
    if calls == [] {
      assert [] + [call] == [call] && [call][1..] == [];
      assert Run(cfg, Apply(cfg, s, call), []) == Apply(cfg, s, call);
    } else {
      assert (calls + [call])[1..] == calls[1..] + [call];
      RunSnoc(cfg, Apply(cfg, s, calls[0]), calls[1..], call);
    }
  }

  lemma Advance(cfg: Config, g: State, calls: seq<Call>, i: nat, s: State)
    requires cfg.rotatePeriod > 0 && i < |calls| && At(cfg, g, calls, i, s) && WellFormed(s, calls[i])
    ensures At(cfg, g, calls, i + 1, Apply(cfg, s, calls[i]))
  {
    assert calls[..i + 1] == calls[..i] + [calls[i]];
    RunSnoc(cfg, g, calls[..i], calls[i]);
  }

  lemma Start(cfg: Config, g: State, calls: seq<Call>)
    requires cfg.rotatePeriod > 0
    ensures At(cfg, g, calls, 0, g)
  {
  }

  lemma Finish(cfg: Config, g: State, calls: seq<Call>, s: State)
    requires cfg.rotatePeriod > 0 && At(cfg, g, calls, |calls|, s)
    ensures s == Run(cfg, g, calls) && WellFormedRun(cfg, g, calls)
  {
    assert calls[..|calls|] == calls;
  }

  /** An account is given the minimum deposit and registers. */
  lemma Enlist(cfg: Config, g: State, calls: seq<Call>, i: nat, s: State, o: Account, deposit: nat)
    returns (t: State)
    requires cfg.rotatePeriod > 0 && i + 1 < |calls| && At(cfg, g, calls, i, s)
    requires calls[i] == FreeBalanceChanged(o, deposit) && calls[i + 1] == Registers(o) && s.minDeposit == Some(deposit)
    ensures At(cfg, g, calls, i + 2, t)
    ensures t == s.(free := t.free, reserved := s.reserved[o := deposit], registered := t.registered)
  {
    Advance(cfg, g, calls, i, s);
    var u := Apply(cfg, s, calls[i]);
    Advance(cfg, g, calls, i + 1, u);
    t := Apply(cfg, u, calls[i + 1]);
  }

  lemma Enrol(cfg: Config, g: State, calls: seq<Call>, i: nat, s: State, c: Account) returns (t: State)
    requires cfg.rotatePeriod > 0 && i < |calls| && At(cfg, g, calls, i, s)
    requires calls[i] == CollatorEnrolled(c) && c !in s.pools
    ensures At(cfg, g, calls, i + 1, t)
    ensures t == s.(pools := s.pools[c := EMPTY_POOL])
  {
    Advance(cfg, g, calls, i, s);
    t := Apply(cfg, s, calls[i]);
  }

  lemma Join(cfg: Config, g: State, calls: seq<Call>, i: nat, s: State, c: Account, o: Account)
    returns (t: State)
    requires cfg.rotatePeriod > 0 && cfg.maxPoolSize > 0 && i < |calls| && At(cfg, g, calls, i, s)
    requires calls[i] == CollatorAdds(c, o) && c in s.pools && s.pools[c] == EMPTY_POOL && Amount(s.reserved, o) > 0
    ensures At(cfg, g, calls, i + 1, t)
    ensures t == s.(pools := s.pools[c := Pool([o], None, 1)])
  {
    Advance(cfg, g, calls, i, s);
    t := Apply(cfg, s, calls[i]);
    assert Add(EMPTY_POOL, o) == Pool([o], None, 1) by {
      assert EMPTY_POOL.orbiters[..0] + [o] + EMPTY_POOL.orbiters[0..] == [o];
    }
  }

  /** A round in which a rotation is due. */
  lemma Turn(cfg: Config, g: State, calls: seq<Call>, i: nat, s: State, round: nat, order: seq<Account>)
    returns (t: State)
    requires cfg.rotatePeriod > 0 && i < |calls| && At(cfg, g, calls, i, s)
    requires calls[i] == NewRound(round, order) && Visits(s, order) && round % cfg.rotatePeriod == 0
    ensures At(cfg, g, calls, i + 1, t)
    ensures t.pools == RotatedAmong(s.pools, order)
    ensures forall a :: Override(t, a) == Written(LastWrite(s.pools, order, a), Override(s, a))
  {
    Advance(cfg, g, calls, i, s);
    t := Apply(cfg, s, calls[i]);
    RotationInClosedForm(cfg, s.(currentRound := round, forceRotation := false), round, order);
    assert s.(currentRound := round).(forceRotation := false) == s.(currentRound := round, forceRotation := false);
    forall a ensures Override(s.(currentRound := round, forceRotation := false), a) == Override(s, a) {}
  }

  lemma Leave(cfg: Config, g: State, calls: seq<Call>, i: nat, s: State, c: Account, o: Account)
    returns (t: State)
    requires cfg.rotatePeriod > 0 && i < |calls| && At(cfg, g, calls, i, s)
    requires calls[i] == OrbiterLeaves(c, o)
    requires c in s.pools && s.pools[c] == Pool([o], Some(CurrentOrbiter(o, false)), 1)
    ensures At(cfg, g, calls, i + 1, t)
    ensures t == s.(pools := s.pools[c := Pool([], Some(CurrentOrbiter(o, true)), 1)])
  {
    Advance(cfg, g, calls, i, s);
    t := Apply(cfg, s, calls[i]);
    assert o in [o] && Without([o], o) == [];
  }

  /** The last write of two visits. */
  lemma TwoVisits(pools: map<Account, Pool>, first: Account, last: Account, a: Account)
    requires first in pools && last in pools
    ensures LastWrite(pools, [first, last], a)
         == if NetWrite(pools[last], last, a) != Keep then NetWrite(pools[last], last, a)
            else NetWrite(pools[first], first, a)
  {
    assert [first, last][..1] == [first] && [first][..0] == [];
    assert LastWrite(pools, [first], a) == NetWrite(pools[first], first, a);
  }

  lemma VisitsBoth(s: State, first: Account, last: Account)
    requires first != last && s.pools.Keys == {first, last}
    ensures Visits(s, [first, last])
  {
    assert forall c :: c in s.pools <==> c in s.pools.Keys;
  }

  /** The program has two collators, with these pools. */
  ghost predicate Two(pools: map<Account, Pool>, c: Account, p: Pool, k: Account, q: Pool) {
    c != k && pools.Keys == {c, k} && pools[c] == p && pools[k] == q
  }

  lemma Replaced(pools: map<Account, Pool>, c: Account, p: Pool, k: Account, q: Pool, r: Pool)
    requires Two(pools, c, p, k, q)
    ensures Two(pools[c := r], c, r, k, q) && Two(pools[k := r], c, p, k, r)
  {
    assert pools[c := r].Keys == {c, k} && pools[k := r].Keys == {c, k};
  }

  lemma BothRotated(pools: map<Account, Pool>, c: Account, p: Pool, k: Account, q: Pool)
    requires Two(pools, c, p, k, q)
    ensures Two(RotatedAmong(pools, [k, c]), c, Rotate(p), k, Rotate(q))
  {
    assert RotatedAmong(pools, [k, c]).Keys == pools.Keys;
  }

  /** Two collators are enrolled and each gets an orbiter. */
  lemma EnrolTwo(cfg: Config, g: State, calls: seq<Call>, i: nat, s: State, c: Account, k: Account) returns (t: State)
    requires cfg.rotatePeriod > 0 && i + 1 < |calls| && At(cfg, g, calls, i, s)
    requires calls[i] == CollatorEnrolled(c) && calls[i + 1] == CollatorEnrolled(k) && c != k && s.pools == map[]
    ensures At(cfg, g, calls, i + 2, t)
    ensures t == s.(pools := t.pools) && Two(t.pools, c, EMPTY_POOL, k, EMPTY_POOL)
  {
    t := Enrol(cfg, g, calls, i, s, c);
    t := Enrol(cfg, g, calls, i + 1, t, k);
  }

  lemma JoinBoth(cfg: Config, g: State, calls: seq<Call>, i: nat, s: State,
                 c: Account, o: Account, k: Account, b: Account) returns (t: State)
    requires cfg.rotatePeriod > 0 && cfg.maxPoolSize > 0 && i + 1 < |calls| && At(cfg, g, calls, i, s)
    requires calls[i] == CollatorAdds(c, o) && calls[i + 1] == CollatorAdds(k, b)
    requires Two(s.pools, c, EMPTY_POOL, k, EMPTY_POOL) && Amount(s.reserved, o) > 0 && Amount(s.reserved, b) > 0
    ensures At(cfg, g, calls, i + 2, t)
    ensures Two(t.pools, c, Pool([o], None, 1), k, Pool([b], None, 1))
  {
    Replaced(s.pools, c, EMPTY_POOL, k, EMPTY_POOL, Pool([o], None, 1));
    t := Join(cfg, g, calls, i, s, c, o);
    Replaced(t.pools, c, Pool([o], None, 1), k, EMPTY_POOL, Pool([b], None, 1));
    t := Join(cfg, g, calls, i + 1, t, k, b);
  }

  // ---------- A collator removed while its orbiter is on the way out ----------

  lemma OneJoins(cfg: Config, deposit: nat, calls: seq<Call>, o: Account, c: Account) returns (t: State)
    requires cfg.rotatePeriod > 0 && cfg.maxPoolSize > 0 && deposit > 0 && |calls| >= 4
    requires calls[0] == FreeBalanceChanged(o, deposit) && calls[1] == Registers(o)
    requires calls[2] == CollatorEnrolled(c) && calls[3] == CollatorAdds(c, o)
    ensures At(cfg, Genesis(deposit), calls, 4, t)
    ensures t.pools == map[c := Pool([o], None, 1)] && t.overrides == map[]
  {
    var g := Genesis(deposit);
    Start(cfg, g, calls);
    t := Enlist(cfg, g, calls, 0, g, o, deposit);
    t := Enrol(cfg, g, calls, 2, t, c);
    t := Join(cfg, g, calls, 3, t, c, o);
  }

  lemma OneServes(cfg: Config, g: State, calls: seq<Call>, i: nat, s: State, o: Account, c: Account) returns (t: State)
    requires cfg.rotatePeriod > 0 && c != o && i < |calls| && calls[i] == NewRound(0, [c]) && At(cfg, g, calls, i, s)
    requires s.pools == map[c := Pool([o], None, 1)] && s.overrides == map[]
    ensures At(cfg, g, calls, i + 1, t)
    ensures t.pools == map[c := Pool([o], Some(CurrentOrbiter(o, false)), 1)]
    ensures Override(t, c) == Some(None) && Override(t, o) == Some(Some(c))
  {
    t := Turn(cfg, g, calls, i, s, 0, [c]);
    assert [c][..0] == [];
    assert LastWrite(s.pools, [c], c) == NetWrite(s.pools[c], c, c);
    assert LastWrite(s.pools, [c], o) == NetWrite(s.pools[c], c, o);
  }

  lemma LeavesAndIsRemoved(cfg: Config, g: State, calls: seq<Call>, i: nat, s: State, o: Account, c: Account)
    returns (t: State)
    requires cfg.rotatePeriod > 0 && c != o && i + 1 < |calls| && At(cfg, g, calls, i, s)
    requires calls[i] == OrbiterLeaves(c, o) && calls[i + 1] == CollatorRemoved(c)
    requires s.pools == map[c := Pool([o], Some(CurrentOrbiter(o, false)), 1)]
    ensures At(cfg, g, calls, i + 2, t) && t.pools == map[]
    ensures Override(t, c) == None && Override(t, o) == Override(s, o)
  {
    var u := Leave(cfg, g, calls, i, s, c, o);
    Advance(cfg, g, calls, i + 1, u);
    t := Apply(cfg, u, calls[i + 1]);
  }

  /** A collator may be removed after its current orbiter has left the vector: then no pool is left, and the
      orbiter still resolves to the former collator, which resolves to itself again. */
  lemma RemovedCollatorStillServed(cfg: Config, o: Account, c: Account, deposit: nat)
    requires cfg.rotatePeriod > 0 && cfg.maxPoolSize > 0 && deposit > 0 && c != o
    ensures var calls := [FreeBalanceChanged(o, deposit), Registers(o), CollatorEnrolled(c), CollatorAdds(c, o),
                          NewRound(0, [c]), OrbiterLeaves(c, o), CollatorRemoved(c)];
            var s := Run(cfg, Genesis(deposit), calls);
            && WellFormedRun(cfg, Genesis(deposit), calls)
            && s.pools == map[] && Resolve(s, o) == Some(c) && Resolve(s, c) == Some(c)
  {
    var calls := [FreeBalanceChanged(o, deposit), Registers(o), CollatorEnrolled(c), CollatorAdds(c, o),
                  NewRound(0, [c]), OrbiterLeaves(c, o), CollatorRemoved(c)];
    var s := OneJoins(cfg, deposit, calls, o, c);
    s := OneServes(cfg, Genesis(deposit), calls, 4, s, o, c);
    s := LeavesAndIsRemoved(cfg, Genesis(deposit), calls, 5, s, o, c);
    Finish(cfg, Genesis(deposit), calls, s);
  }

  // ---------- One orbiter in two pools ----------

  function SetUp(o: Account, c: Account, k: Account, deposit: nat): seq<Call> {
    [FreeBalanceChanged(o, deposit), Registers(o), CollatorEnrolled(c), CollatorEnrolled(k), CollatorAdds(c, o),
     CollatorAdds(k, o)]
  }

  lemma SettingUp(cfg: Config, deposit: nat, calls: seq<Call>, o: Account, c: Account, k: Account)
    returns (s: State)
    requires cfg.rotatePeriod > 0 && cfg.maxPoolSize > 0 && deposit > 0 && c != k && |calls| >= 6
    requires calls[0] == FreeBalanceChanged(o, deposit) && calls[1] == Registers(o)
    requires calls[2] == CollatorEnrolled(c) && calls[3] == CollatorEnrolled(k)
    requires calls[4] == CollatorAdds(c, o) && calls[5] == CollatorAdds(k, o)
    ensures At(cfg, Genesis(deposit), calls, 6, s)
    ensures Two(s.pools, c, Pool([o], None, 1), k, Pool([o], None, 1))
  {
    var g := Genesis(deposit);
    Start(cfg, g, calls);
    s := Enlist(cfg, g, calls, 0, g, o, deposit);
    s := EnrolTwo(cfg, g, calls, 2, s, c, k);
    s := JoinBoth(cfg, g, calls, 4, s, c, o, k, o);
  }

  /** Two pools in which the same orbiter is due next: the pool visited last gets the override. */
  lemma LastVisitWins(cfg: Config, g: State, calls: seq<Call>, i: nat, s: State,
                      o: Account, first: Account, last: Account)
    requires cfg.rotatePeriod > 0 && first != last && i + 1 == |calls| && At(cfg, g, calls, i, s)
    requires s.pools.Keys == {first, last} && s.pools[last] == Pool([o], None, 1)
    requires calls[i] == NewRound(0, [first, last])
    ensures WellFormedRun(cfg, g, calls) && Resolve(Run(cfg, g, calls), o) == Some(last)
  {
    VisitsBoth(s, first, last);
    var t := Turn(cfg, g, calls, i, s, 0, [first, last]);
    TwoVisits(s.pools, first, last, o);
    assert Override(t, o) == Some(Some(last));
    Finish(cfg, g, calls, t);
  }

  lemma SharedOrbiterServes(cfg: Config, o: Account, c: Account, k: Account, deposit: nat, first: Account,
                            last: Account)
    requires cfg.rotatePeriod > 0 && cfg.maxPoolSize > 0 && deposit > 0 && c != k
    requires (first == c && last == k) || (first == k && last == c)
    ensures var calls := SetUp(o, c, k, deposit) + [NewRound(0, [first, last])];
            && WellFormedRun(cfg, Genesis(deposit), calls)
            && Resolve(Run(cfg, Genesis(deposit), calls), o) == Some(last)
  {
    var calls := SetUp(o, c, k, deposit) + [NewRound(0, [first, last])];
    var s := SettingUp(cfg, deposit, calls, o, c, k);
    LastVisitWins(cfg, Genesis(deposit), calls, 6, s, o, first, last);
  }

  /** The duplicate check is per pool, so one account may serve two pools: after one and the same set-up, the
      account resolves to whichever collator the rotation happens to visit last. */
  lemma SharedOrbiterMakesOrderVisible(cfg: Config, o: Account, c: Account, k: Account, deposit: nat)
    requires cfg.rotatePeriod > 0 && cfg.maxPoolSize > 0 && deposit > 0 && c != k
    ensures var x := SetUp(o, c, k, deposit) + [NewRound(0, [c, k])];
            var y := SetUp(o, c, k, deposit) + [NewRound(0, [k, c])];
            && WellFormedRun(cfg, Genesis(deposit), x) && WellFormedRun(cfg, Genesis(deposit), y)
            && Resolve(Run(cfg, Genesis(deposit), x), o) == Some(k)
            && Resolve(Run(cfg, Genesis(deposit), y), o) == Some(c)
  {
    SharedOrbiterServes(cfg, o, c, k, deposit, c, k);
    SharedOrbiterServes(cfg, o, c, k, deposit, k, c);
  }

  // ---------- A collator that is an orbiter of another ----------

  lemma ChainJoins(cfg: Config, deposit: nat, calls: seq<Call>, k: Account, b: Account, c: Account) returns (s: State)
    requires cfg.rotatePeriod > 0 && cfg.maxPoolSize > 0 && deposit > 0 && k != b && k != c && |calls| >= 8
    requires calls[0] == FreeBalanceChanged(k, deposit) && calls[1] == Registers(k)
    requires calls[2] == FreeBalanceChanged(b, deposit) && calls[3] == Registers(b)
    requires calls[4] == CollatorEnrolled(c) && calls[5] == CollatorEnrolled(k)
    requires calls[6] == CollatorAdds(c, k) && calls[7] == CollatorAdds(k, b)
    ensures At(cfg, Genesis(deposit), calls, 8, s)
    ensures Two(s.pools, c, Pool([k], None, 1), k, Pool([b], None, 1))
  {
    var g := Genesis(deposit);
    Start(cfg, g, calls);
    s := Enlist(cfg, g, calls, 0, g, k, deposit);
    s := Enlist(cfg, g, calls, 2, s, b, deposit);
    s := EnrolTwo(cfg, g, calls, 4, s, c, k);
    s := JoinBoth(cfg, g, calls, 6, s, c, k, k, b);
  }

  /** Both collators get their orbiters, and then `k` leaves the pool of `c`. */
  lemma ChainServes(cfg: Config, g: State, calls: seq<Call>, i: nat, s: State, k: Account, b: Account, c: Account)
    returns (t: State)
    requires cfg.rotatePeriod > 0 && k != c && i + 1 < |calls| && At(cfg, g, calls, i, s)
    requires calls[i] == NewRound(0, [k, c]) && calls[i + 1] == OrbiterLeaves(c, k)
    requires Two(s.pools, c, Pool([k], None, 1), k, Pool([b], None, 1))
    ensures At(cfg, g, calls, i + 2, t)
    ensures Two(t.pools, c, Pool([], Some(CurrentOrbiter(k, true)), 1), k, Pool([b], Some(CurrentOrbiter(b, false)), 1))
  {
    VisitsBoth(s, k, c);
    BothRotated(s.pools, c, Pool([k], None, 1), k, Pool([b], None, 1));
    var p, q := Pool([k], Some(CurrentOrbiter(k, false)), 1), Pool([b], Some(CurrentOrbiter(b, false)), 1);
    t := Turn(cfg, g, calls, i, s, 0, [k, c]);
    assert Two(t.pools, c, p, k, q);
    Replaced(t.pools, c, p, k, q, Pool([], Some(CurrentOrbiter(k, true)), 1));
    t := Leave(cfg, g, calls, i + 1, t, c, k);
  }

  /** A rotation that visits `k` before `c` gives the rights of `k` to its orbiter, and then, as `k` has left
      the pool of `c`, takes away the ban on `k`. */
  lemma BanIsLifted(s: State, t: State, k: Account, b: Account, c: Account)
    requires k != b && b != c
    requires Two(s.pools, c, Pool([], Some(CurrentOrbiter(k, true)), 1),
                          k, Pool([b], Some(CurrentOrbiter(b, false)), 1))
    requires t.pools == RotatedAmong(s.pools, [k, c])
    requires forall a :: Override(t, a) == Written(LastWrite(s.pools, [k, c], a), Override(s, a))
    ensures Current(t, k) == Some(CurrentOrbiter(b, false)) && Resolve(t, k) == Some(k) && Resolve(t, b) == Some(k)
  {
    TwoVisits(s.pools, k, c, k);
    TwoVisits(s.pools, k, c, b);
    assert Override(t, k) == None && Override(t, b) == Some(Some(k));
  }

  /** An orbiter may itself be a collator. Then, in a run in which nobody is removed from the program, a
      collator of the program and its current orbiter both author for it. */
  lemma CollatorAsOrbiterSharesAuthority(cfg: Config, k: Account, b: Account, c: Account, deposit: nat)
    requires cfg.rotatePeriod > 0 && cfg.maxPoolSize > 0 && deposit > 0 && k != b && k != c && b != c
    ensures var calls := [FreeBalanceChanged(k, deposit), Registers(k), FreeBalanceChanged(b, deposit), Registers(b),
                          CollatorEnrolled(c), CollatorEnrolled(k), CollatorAdds(c, k), CollatorAdds(k, b),
                          NewRound(0, [k, c]), OrbiterLeaves(c, k), NewRound(cfg.rotatePeriod, [k, c])];
            var s := Run(cfg, Genesis(deposit), calls);
            && WellFormedRun(cfg, Genesis(deposit), calls)
            && Current(s, k) == Some(CurrentOrbiter(b, false))
            && Resolve(s, b) == Some(k) && Resolve(s, k) == Some(k)
  {
    var calls := [FreeBalanceChanged(k, deposit), Registers(k), FreeBalanceChanged(b, deposit), Registers(b),
                  CollatorEnrolled(c), CollatorEnrolled(k), CollatorAdds(c, k), CollatorAdds(k, b),
                  NewRound(0, [k, c]), OrbiterLeaves(c, k), NewRound(cfg.rotatePeriod, [k, c])];
    var s := ChainJoins(cfg, deposit, calls, k, b, c);
    s := ChainServes(cfg, Genesis(deposit), calls, 8, s, k, b, c);
    VisitsBoth(s, k, c);
    assert cfg.rotatePeriod % cfg.rotatePeriod == 0;
    var t := Turn(cfg, Genesis(deposit), calls, 10, s, cfg.rotatePeriod, [k, c]);
    BanIsLifted(s, t, k, b, c);
    Finish(cfg, Genesis(deposit), calls, t);
  }
}
