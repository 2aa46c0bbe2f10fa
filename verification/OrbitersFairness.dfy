/** Round robin over runs of pallet calls: when an orbiter gets its turn, and how long one that has left
    goes on serving. */
module OrbitersFairness {
  import opened Integers
  import opened Xcm
  import opened CollatorPools
  import opened Orbiters
  import opened OrbitersRotation
  import opened OrbitersRuns
  import opened OrbitersDeposits
  import opened OrbitersEffects

  // ---------- One pool, seen from a run of the pallet ----------

  ghost predicate DueCall(cfg: Config, s: State, call: Call)
    requires cfg.rotatePeriod > 0
  {
    call.NewRound? && Due(cfg, s, call.round)
  }

  /** What a call does to the queue of `c`, as a sequence of at most one turn. */
  ghost function TurnOf(cfg: Config, s: State, call: Call, c: Account): seq<Turn>
    requires cfg.rotatePeriod > 0
  {
    if DueCall(cfg, s, call) then [Rotation]
    else if call.CollatorAdds? && call.collator == c && CollatorAddOrbiter(cfg, s, c, call.orbiter).1.Ok? then
      [Arrival(call.orbiter)]
    else if call.OrbiterLeaves? && call.collator == c && RemoveFromPool(s, c, call.orbiter).1.Ok? then
      [Departure(call.orbiter)]
    else []
  }

  ghost function TurnsOf(cfg: Config, s: State, calls: seq<Call>, c: Account): seq<Turn>
    requires cfg.rotatePeriod > 0
    decreases |calls|
  {
    if calls == [] then []
    else TurnOf(cfg, s, calls[0], c) + TurnsOf(cfg, Apply(cfg, s, calls[0]), calls[1..], c)
  }

  /** The orbiters that become the current one of `c` over a run, in order: one for each due round that finds
      somebody in the vector. */
  ghost function Appointed(cfg: Config, s: State, calls: seq<Call>, c: Account): seq<Account>
    requires cfg.rotatePeriod > 0
    decreases |calls|
  {
    if calls == [] then []
    else
      var t := Apply(cfg, s, calls[0]);
      var later := Appointed(cfg, t, calls[1..], c);
      if DueCall(cfg, s, calls[0]) && c in s.pools && s.pools[c].orbiters != [] && Current(t, c).Some?
      then [Current(t, c).value.account] + later else later
  }

  /** `c` stays in the program over a well-formed run. */
  ghost predicate StaysEnrolled(cfg: Config, s: State, calls: seq<Call>, c: Account)
    requires cfg.rotatePeriod > 0
    decreases |calls|
  {
    calls == [] ||
      (&& calls[0] != CollatorRemoved(c) && WellFormed(s, calls[0])
       && StaysEnrolled(cfg, Apply(cfg, s, calls[0]), calls[1..], c))
  }

  lemma RoundIsTurn(cfg: Config, s: State, call: Call, c: Account)
    requires cfg.rotatePeriod > 0 && c in s.pools && call.NewRound? && WellFormed(s, call)
    ensures var t := Apply(cfg, s, call);
            c in t.pools && t.pools[c] == if DueCall(cfg, s, call) then Rotate(s.pools[c]) else s.pools[c]
  {
    RoundsRotate(cfg, s, call.round, call.order);
  }

  lemma JoiningIsTurn(cfg: Config, s: State, k: Account, o: Account, c: Account)
    requires cfg.rotatePeriod > 0 && c in s.pools
    ensures var t := CollatorAddOrbiter(cfg, s, k, o).0;
            c in t.pools && t.pools[c] == AfterRun(s.pools[c], TurnOf(cfg, s, CollatorAdds(k, o), c))
  {
    OneTurn(s.pools[c], Arrival(o));
  }

  lemma LeavingIsTurn(cfg: Config, s: State, k: Account, o: Account, c: Account)
    requires cfg.rotatePeriod > 0 && c in s.pools
    ensures var t := RemoveFromPool(s, k, o).0;
            c in t.pools && t.pools[c] == AfterRun(s.pools[c], TurnOf(cfg, s, OrbiterLeaves(k, o), c))
  {
    OneTurn(s.pools[c], Departure(o));
  }

  lemma ProgramCallIsNoTurn(cfg: Config, s: State, call: Call, c: Account)
    requires cfg.rotatePeriod > 0 && c in s.pools && call != CollatorRemoved(c)
    requires call.CollatorEnrolled? || call.CollatorRemoved?
    ensures c in Apply(cfg, s, call).pools && Apply(cfg, s, call).pools[c] == s.pools[c]
  {
  }

  lemma OneTurn(p: Pool, turn: Turn)
    ensures AfterRun(p, [turn]) == AfterTurn(p, turn) && AfterRun(p, []) == p
    ensures Selections(p, [turn]) == if turn.Rotation? && p.orbiters != [] then [NextOrbiter(p).value] else []
  {
  }

  lemma CallIsTurn(cfg: Config, s: State, call: Call, c: Account)
    requires cfg.rotatePeriod > 0 && c in s.pools && call != CollatorRemoved(c) && WellFormed(s, call)
    ensures var t := Apply(cfg, s, call);
            c in t.pools && t.pools[c] == AfterRun(s.pools[c], TurnOf(cfg, s, call, c))
  {
    if call.NewRound? {
      RoundIsTurn(cfg, s, call, c);
      OneTurn(s.pools[c], Rotation);
    } else if call.CollatorAdds? {
      JoiningIsTurn(cfg, s, call.collator, call.orbiter, c);
    } else if call.OrbiterLeaves? {
      LeavingIsTurn(cfg, s, call.collator, call.orbiter, c);
    } else if call.CollatorEnrolled? || call.CollatorRemoved? {
      ProgramCallIsNoTurn(cfg, s, call, c);
    } else {
      RightsUntouched(cfg, s, call);
    }
  }

  lemma AppointsHead(cfg: Config, s: State, call: Call, c: Account)
    requires cfg.rotatePeriod > 0 && c in s.pools && WellFormed(s, call) && DueCall(cfg, s, call)
    requires s.pools[c].orbiters != []
    ensures Current(Apply(cfg, s, call), c) == Some(CurrentOrbiter(NextOrbiter(s.pools[c]).value, false))
  {
    RoundIsTurn(cfg, s, call, c);
  }

  /** A run of the pallet is a run of turns of each pool that stays, with the same selections. */
  lemma {:induction false} RunIsTurns(cfg: Config, s: State, calls: seq<Call>, c: Account)
    requires cfg.rotatePeriod > 0 && c in s.pools && StaysEnrolled(cfg, s, calls, c)
    ensures c in Run(cfg, s, calls).pools
    ensures Appointed(cfg, s, calls, c) == Selections(s.pools[c], TurnsOf(cfg, s, calls, c))
    decreases |calls|
  {
    if calls != [] {
      var call := calls[0];
      var t := Apply(cfg, s, call);
      CallIsTurn(cfg, s, call, c);
      RunIsTurns(cfg, t, calls[1..], c);
      var later := TurnsOf(cfg, t, calls[1..], c);
      if DueCall(cfg, s, call) && s.pools[c].orbiters != [] {
        AppointsHead(cfg, s, call, c);
      }
      FirstTurn(s.pools[c], TurnOf(cfg, s, call, c), later);
    }
  }

  lemma FirstTurn(p: Pool, first: seq<Turn>, later: seq<Turn>)
    requires |first| <= 1
    ensures var rest := Selections(AfterRun(p, first), later);
            Selections(p, first + later)
              == if first == [Rotation] && p.orbiters != [] then [NextOrbiter(p).value] + rest else rest
  {
    if first == [] {
      assert first + later == later;
    } else {
      assert (first + later)[1..] == later;
      OneTurn(p, first[0]);
    }
  }

  // ---------- Everybody gets a turn ----------

  /** Somebody before the pointer leaves while `o` is the next in turn: `o` is passed over. */
  ghost predicate PassedOver(s: State, call: Call, c: Account, o: Account) {
    && call.OrbiterLeaves? && call.collator == c && c in s.pools
    && call.orbiter in s.pools[c].orbiters[..Pointer(s.pools[c])]
    && Turns(s.pools[c]) != [] && Turns(s.pools[c])[0] == o
  }

  /** `o` stays in the pool of `c` and is not passed over. */
  ghost predicate KeepsPlace(cfg: Config, s: State, calls: seq<Call>, c: Account, o: Account)
    requires cfg.rotatePeriod > 0
    decreases |calls|
  {
    calls == [] ||
      (&& calls[0] != OrbiterLeaves(c, o) && !PassedOver(s, calls[0], c, o)
       && KeepsPlace(cfg, Apply(cfg, s, calls[0]), calls[1..], c, o))
  }

  lemma {:induction false} KeepsPlaceIsUndisturbed(cfg: Config, s: State, calls: seq<Call>, c: Account, o: Account)
    requires cfg.rotatePeriod > 0 && c in s.pools && StaysEnrolled(cfg, s, calls, c)
    requires KeepsPlace(cfg, s, calls, c, o)
    ensures Undisturbed(s.pools[c], TurnsOf(cfg, s, calls, c), o)
    decreases |calls|
  {
    if calls != [] {
      var call := calls[0];
      var t := Apply(cfg, s, call);
      CallIsTurn(cfg, s, call, c);
      KeepsPlaceIsUndisturbed(cfg, t, calls[1..], c, o);
      var first, later := TurnOf(cfg, s, call, c), TurnsOf(cfg, t, calls[1..], c);
      if first == [] {
        OneTurn(s.pools[c], Rotation);
        assert first + later == later;
      } else {
        OneTurn(s.pools[c], first[0]);
        assert (first + later)[1..] == later;
        TurnIsUndisturbed(cfg, s, call, c, o);
      }
    }
  }

  lemma TurnIsUndisturbed(cfg: Config, s: State, call: Call, c: Account, o: Account)
    requires cfg.rotatePeriod > 0 && c in s.pools && TurnOf(cfg, s, call, c) != []
    requires call != OrbiterLeaves(c, o) && !PassedOver(s, call, c, o)
    ensures var turn := TurnOf(cfg, s, call, c)[0];
            && (turn.Arrival? ==> turn.orbiter !in s.pools[c].orbiters)
            && turn != Departure(o) && !PassesOver(s.pools[c], turn, o)
  {
    if call.CollatorAdds? {
      JoiningMeans(cfg, s, c, call.orbiter);
    }
  }

  /** In a reachable state, an orbiter with `k` others before it in the pool of `c`, who keeps its place, becomes
      the current orbiter at the due round number `k + 1` at the latest, whoever joins and leaves meanwhile. */
  lemma EverybodyIsAppointed(cfg: Config, s: State, calls: seq<Call>, c: Account, o: Account, k: nat) returns (i: nat)
    requires cfg.rotatePeriod > 0 && Backed(cfg, s) && c in s.pools
    requires StaysEnrolled(cfg, s, calls, c) && KeepsPlace(cfg, s, calls, c, o)
    requires k < |s.pools[c].orbiters| && Turns(s.pools[c])[k] == o
    requires k < |Appointed(cfg, s, calls, c)|
    ensures i <= k && Appointed(cfg, s, calls, c)[i] == o
  {
    RunIsTurns(cfg, s, calls, c);
    KeepsPlaceIsUndisturbed(cfg, s, calls, c, o);
    i := SelectedInTime(s.pools[c], TurnsOf(cfg, s, calls, c), o, k);
  }

  /** In particular the one who joins a pool of `n`: with its own turn, the `n + 1`-th due round. */
  lemma NewcomerIsAppointed(cfg: Config, s: State, calls: seq<Call>, c: Account, o: Account) returns (i: nat)
    requires cfg.rotatePeriod > 0 && Backed(cfg, s) && CollatorAddOrbiter(cfg, s, c, o).1 == Ok(())
    requires var t := CollatorAddOrbiter(cfg, s, c, o).0;
             && StaysEnrolled(cfg, t, calls, c) && KeepsPlace(cfg, t, calls, c, o)
             && |s.pools[c].orbiters| < |Appointed(cfg, t, calls, c)|
    ensures i <= |s.pools[c].orbiters|
    ensures Appointed(cfg, CollatorAddOrbiter(cfg, s, c, o).0, calls, c)[i] == o
  {
    JoiningMeans(cfg, s, c, o);
    AddKeepsBacked(cfg, s, c, o);
    var t := CollatorAddOrbiter(cfg, s, c, o).0;
    TurnsAreDistinct(s.pools[c]);
    TurnsAreDistinct(t.pools[c]);
    i := EverybodyIsAppointed(cfg, t, calls, c, o, |s.pools[c].orbiters|);
  }

  /** Nobody leaves the pool of `c`. */
  ghost predicate NobodyLeaves(calls: seq<Call>, c: Account) {
    forall i :: 0 <= i < |calls| && calls[i].OrbiterLeaves? ==> calls[i].collator != c
  }

  lemma {:induction false} NoDepartures(cfg: Config, s: State, calls: seq<Call>, c: Account)
    requires cfg.rotatePeriod > 0 && NobodyLeaves(calls, c)
    ensures forall i :: 0 <= i < |TurnsOf(cfg, s, calls, c)| ==> !TurnsOf(cfg, s, calls, c)[i].Departure?
    decreases |calls|
  {
    if calls != [] {
      assert calls[0].OrbiterLeaves? ==> calls[0].collator != c;
      NoDepartures(cfg, Apply(cfg, s, calls[0]), calls[1..], c);
    }
  }

  /** While nobody leaves, the orbiters of `c` are appointed in exactly the order of the queue, from any state. */
  lemma AppointedInTurn(cfg: Config, s: State, calls: seq<Call>, c: Account, k: nat)
    requires cfg.rotatePeriod > 0 && c in s.pools && StaysEnrolled(cfg, s, calls, c) && NobodyLeaves(calls, c)
    requires k < |s.pools[c].orbiters| && k < |Appointed(cfg, s, calls, c)|
    ensures Appointed(cfg, s, calls, c)[k] == Turns(s.pools[c])[k]
  {
    RunIsTurns(cfg, s, calls, c);
    NoDepartures(cfg, s, calls, c);
    SelectedInTurn(s.pools[c], TurnsOf(cfg, s, calls, c), k);
  }

  // ---------- How long an orbiter serves ----------

  ghost predicate Serves(s: State, c: Account, o: Account) {
    Current(s, c).Some? && Current(s, c).value.account == o
  }

  /** The collator is removed, or a due round finds somebody else at the head of the queue. */
  ghost predicate Relieves(cfg: Config, s: State, call: Call, c: Account, o: Account)
    requires cfg.rotatePeriod > 0 && c in s.pools
  {
    || call == CollatorRemoved(c)
    || (DueCall(cfg, s, call) && Turns(s.pools[c]) != [] && Turns(s.pools[c])[0] != o)
  }

  /** One call ends the service of an orbiter exactly when it relieves it: leaving the vector does not. */
  lemma RelievedExactly(cfg: Config, s: State, call: Call, c: Account, o: Account)
    requires cfg.rotatePeriod > 0 && Serves(s, c, o) && WellFormed(s, call)
    ensures Serves(Apply(cfg, s, call), c, o) <==> !Relieves(cfg, s, call, c, o)
  {
    if call.NewRound? {
      RotatesExactlyWhenDue(cfg, s, call.round, call.order);
    } else if call.CollatorAdds? || call.OrbiterLeaves? || call.CollatorEnrolled? {
      PoolCallsKeepCurrent(cfg, s, call);
    } else if call.CollatorRemoved? {
      RemovalMeans(s, call.collator);
    } else {
      RightsUntouched(cfg, s, call);
    }
  }

  ghost predicate NotRelieved(cfg: Config, s: State, calls: seq<Call>, c: Account, o: Account)
    requires cfg.rotatePeriod > 0
    decreases |calls|
  {
    calls == [] ||
      (&& WellFormed(s, calls[0]) && c in s.pools && !Relieves(cfg, s, calls[0], c, o)
       && NotRelieved(cfg, Apply(cfg, s, calls[0]), calls[1..], c, o))
  }

  /** Whoever serves a collator, in its vector or not any more, cannot unregister until it is relieved, over any
      run: its deposit stays reserved while it may still author. */
  lemma {:induction false} ServingKeepsDeposit(cfg: Config, s: State, calls: seq<Call>, c: Account, o: Account,
                                               hint: nat)
    requires cfg.rotatePeriod > 0 && Backed(cfg, s) && Serves(s, c, o) && NotRelieved(cfg, s, calls, c, o)
    ensures var t := Run(cfg, s, calls);
            && Serves(t, c, o) && Amount(t.reserved, o) > 0
            && OrbiterUnregister(t, o, hint)
               == (t, Err(if hint < |t.pools| then CollatorsPoolCountTooLow else OrbiterStillInAPool))
    decreases |calls|
  {
    if calls == [] {
      assert s.pools[c].Contains(o);
      UnregisterRefundsExactly(cfg, s, o, hint);
    } else {
      RelievedExactly(cfg, s, calls[0], c, o);
      StepKeepsBacked(cfg, s, calls[0]);
      ServingKeepsDeposit(cfg, Apply(cfg, s, calls[0]), calls[1..], c, o, hint);
    }
  }

  lemma RelievedIsInNoPool(cfg: Config, s: State, call: Call, c: Account, o: Account)
    requires cfg.rotatePeriod > 0 && Serves(s, c, o) && WellFormed(s, call)
    requires call.NewRound? && Relieves(cfg, s, call, c, o) && o !in s.pools[c].orbiters
    requires forall k :: k in s.pools && k != c ==> !s.pools[k].Contains(o)
    ensures var u := Apply(cfg, s, call);
            InNoPool(u, o) && u.pools.Keys == s.pools.Keys && u.free == s.free && u.reserved == s.reserved
  {
    var u := Apply(cfg, s, call);
    RoundsRotate(cfg, s, call.round, call.order);
    forall k | k in u.pools ensures !u.pools[k].Contains(o) {
      RotatingMeans(s.pools[k]);
      HeadIsMember(s.pools[k]);
    }
  }

  lemma HeadIsMember(p: Pool)
    ensures Turns(p) != [] ==> Turns(p)[0] in p.orbiters
  {
  }

  lemma FreeToGo(cfg: Config, s: State, u: State, o: Account, hint: nat)
    requires Backed(cfg, u) && InNoPool(u, o) && u.pools.Keys == s.pools.Keys && |s.pools| <= hint
    ensures var t := OrbiterUnregister(u, o, hint).0; Amount(t.reserved, o) == 0 && Amount(t.free, o) == Wealth(u, o)
  {
    assert |u.pools| == |u.pools.Keys| == |s.pools.Keys| == |s.pools|;
    UnregisterRefundsExactly(cfg, u, o, hint);
  }

  /** Once relieved and in no other pool, it gets the whole deposit back. */
  lemma RelievedGetsDepositBack(cfg: Config, s: State, call: Call, c: Account, o: Account, hint: nat)
    requires cfg.rotatePeriod > 0 && Backed(cfg, s) && Serves(s, c, o) && WellFormed(s, call)
    requires call.NewRound? && Relieves(cfg, s, call, c, o) && o !in s.pools[c].orbiters
    requires forall k :: k in s.pools && k != c ==> !s.pools[k].Contains(o)
    requires |s.pools| <= hint
    ensures var t := Apply(cfg, Apply(cfg, s, call), Unregisters(o, hint));
            Amount(t.reserved, o) == 0 && Amount(t.free, o) == Wealth(s, o)
  {
    var u := Apply(cfg, s, call);
    StepKeepsBacked(cfg, s, call);
    RelievedIsInNoPool(cfg, s, call, c, o);
    FreeToGo(cfg, s, u, o, hint);
  }
}
