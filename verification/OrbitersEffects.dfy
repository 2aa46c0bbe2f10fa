/** What each call of the orbiters pallet answers and changes, in terms of queues of turns, current orbiters,
    overrides and balances. */
module OrbitersEffects {
  import opened Integers
  import opened Xcm
  import opened CollatorPools
  import opened Orbiters
  import opened OrbitersRotation
  import opened OrbitersRuns

  /** Only the pool of `c` may differ, and the same collators have one. */
  ghost predicate OnlyPool(s: State, t: State, c: Account) {
    && t == s.(pools := t.pools) && t.pools.Keys == s.pools.Keys
    && forall k :: k in s.pools && k != c ==> t.pools[k] == s.pools[k]
  }

  // ---------- Joining and leaving ----------

  /** Every outcome of joining. A newcomer goes to the back of the queue of turns, as if it had had its turn. */
  lemma JoiningMeans(cfg: Config, s: State, c: Account, o: Account)
    ensures var (t, r) := CollatorAddOrbiter(cfg, s, c, o);
            && (r.Err? ==> t == s)
            && (r == Err(CollatorNotFound) <==> c !in s.pools)
            && (c in s.pools ==>
                  var full, member := |s.pools[c].orbiters| >= cfg.maxPoolSize, o in s.pools[c].orbiters;
                  && (r == Err(CollatorPoolTooLarge) <==> full)
                  && (r == Err(OrbiterAlreadyInPool) <==> !full && member)
                  && (r == Err(OrbiterDepositNotFound) <==> !full && !member && Amount(s.reserved, o) == 0)
                  && (r == Ok(()) <==> !full && !member && Amount(s.reserved, o) > 0)
                  && (r == Ok(()) ==> Joined(s, t, c, o)))
  {
    if c in s.pools {
      AddGoesLast(s.pools[c], o);
    }
  }

  ghost predicate Joined(s: State, t: State, c: Account, o: Account)
    requires c in s.pools
  {
    && OnlyPool(s, t, c) && c in t.pools
    && Turns(t.pools[c]) == Turns(s.pools[c]) + [o]
    && CollatorPools.Served(t.pools[c]) == CollatorPools.Served(s.pools[c]) + [o]
    && t.pools[c].current == s.pools[c].current
  }

  /** The queue of turns once `o` has left: everybody else keeps the order, except that the orbiter due next
      goes to the back when `o` had had its turn already. */
  function TurnsAfterLeaving(p: Pool, o: Account): seq<Account> {
    var rest := Without(Turns(p), o);
    if o in p.orbiters[..Pointer(p)] && rest != [] then rest[1..] + [rest[0]] else rest
  }

  ghost predicate LeftPool(p: Pool, q: Pool, o: Account) {
    && o !in q.orbiters && Turns(q) == TurnsAfterLeaving(p, o) && q.next == p.next
    && q.current == if p.current.Some? && p.current.value.account == o then Some(CurrentOrbiter(o, true))
                    else p.current
  }

  lemma RemovingMeans(p: Pool, o: Account)
    requires NoDuplicates(p.orbiters) && o in p.orbiters
    ensures LeftPool(p, Remove(p, o).0, o)
    ensures var serving := p.current.Some? && p.current.value.account == o;
            Remove(p, o).1 == if serving then OrbiterRemoveScheduled else OrbiterRemoved
  {
    var j :| 0 <= j < |p.orbiters| && p.orbiters[j] == o;
    RemoveSkipsAtMostOne(p, j);
    FoundInFront(p, o, j);
    WithoutDistinct(p.orbiters, o);
  }

  lemma FoundInFront(p: Pool, o: Account, j: nat)
    requires NoDuplicates(p.orbiters) && j < |p.orbiters| && p.orbiters[j] == o
    ensures o in p.orbiters[..Pointer(p)] <==> j < Pointer(p)
  {
    if j < Pointer(p) {
      assert p.orbiters[..Pointer(p)][j] == o;
    }
  }

  /** Every outcome of leaving, by the orbiter or by the collator. The current orbiter goes on serving, flagged. */
  lemma LeavingMeans(s: State, c: Account, o: Account)
    requires c in s.pools ==> NoDuplicates(s.pools[c].orbiters)
    ensures var (t, r) := RemoveFromPool(s, c, o);
            && (r.Err? ==> t == s)
            && (r == Err(CollatorNotFound) <==> c !in s.pools)
            && (c in s.pools ==>
                  && (r == Err(OrbiterNotFoundInPool) <==> o !in s.pools[c].orbiters)
                  && (r == Ok(()) <==> o in s.pools[c].orbiters)
                  && (r == Ok(()) ==> Left(s, t, c, o)))
  {
    if c in s.pools && o in s.pools[c].orbiters {
      RemovingMeans(s.pools[c], o);
    }
  }

  ghost predicate Left(s: State, t: State, c: Account, o: Account)
    requires c in s.pools
  {
    OnlyPool(s, t, c) && c in t.pools && LeftPool(s.pools[c], t.pools[c], o)
  }

  // ---------- The program ----------

  /** A new collator gets an empty pool that nobody serves. */
  lemma EnrollingMeans(s: State, c: Account)
    ensures var (t, r) := AddCollator(s, c);
            && (r == Ok(()) <==> c !in s.pools) && (r.Err? ==> r == Err(CollatorAlreadyAdded) && t == s)
            && (r == Ok(()) ==>
                  && t == s.(pools := t.pools) && t.pools.Keys == s.pools.Keys + {c}
                  && (forall k :: k in s.pools ==> t.pools[k] == s.pools[k])
                  && t.pools[c].orbiters == [] && Current(t, c) == None && t.pools[c].next == 0)
  {
  }

  /** The pool of the collator goes, with its override and those of the orbiters in the vector. */
  lemma RemovalMeans(s: State, c: Account)
    ensures var (t, r) := RemoveCollator(s, c);
            && (r == Ok(()) <==> c in s.pools) && (r.Err? ==> r == Err(CollatorNotFound) && t == s)
            && (r == Ok(()) ==>
                  && t == s.(pools := t.pools, overrides := t.overrides) && t.pools.Keys == s.pools.Keys - {c}
                  && (forall k :: k in t.pools ==> t.pools[k] == s.pools[k])
                  && (forall a :: Override(t, a)
                        == if a == c || a in s.pools[c].orbiters then None else Override(s, a)))
  {
  }

  // ---------- Rounds ----------

  /** A rotation is forced, or the round is a multiple of the period. */
  predicate Due(cfg: Config, s: State, round: nat)
    requires cfg.rotatePeriod > 0
  {
    s.forceRotation || round % cfg.rotatePeriod == 0
  }

  ghost predicate TurnTaken(p: Pool, q: Pool) {
    var turns := Turns(p);
    && q.orbiters == p.orbiters
    && (if turns == [] then q.current == p.current
        else q.current == Some(CurrentOrbiter(turns[0], false)) && Turns(q) == turns[1..] + [turns[0]])
  }

  lemma RotatingMeans(p: Pool)
    ensures TurnTaken(p, Rotate(p))
  {
    if p.orbiters == [] {
      RotateEmptied(p);
    } else {
      RotateServesHead(p);
    }
  }

  lemma RoundsRotate(cfg: Config, s: State, round: nat, order: seq<Account>)
    requires cfg.rotatePeriod > 0 && Visits(s, order)
    ensures var t := OnNewRound(cfg, s, round, order);
            && t == s.(currentRound := round, forceRotation := false, pools := t.pools, overrides := t.overrides,
                       perRound := t.perRound)
            && t.pools.Keys == s.pools.Keys
            && (forall c :: c in s.pools ==>
                  t.pools[c] == if Due(cfg, s, round) then Rotate(s.pools[c]) else s.pools[c])
            && (!Due(cfg, s, round) ==> t.overrides == s.overrides && t.perRound == s.perRound)
  {
    RotationInClosedForm(cfg, s.(currentRound := round, forceRotation := false), round, order);
  }

  /** A new round serves every queue once, exactly when a rotation is due, and uses the force up. The head of a
      queue becomes the current orbiter and goes to the back; where the vector is empty, whoever serves goes on. */
  lemma RotatesExactlyWhenDue(cfg: Config, s: State, round: nat, order: seq<Account>)
    requires cfg.rotatePeriod > 0 && Visits(s, order)
    ensures var t := OnNewRound(cfg, s, round, order);
            && t == s.(currentRound := round, forceRotation := false, pools := t.pools, overrides := t.overrides,
                       perRound := t.perRound)
            && t.pools.Keys == s.pools.Keys
            && (forall c :: c in s.pools ==>
                  if Due(cfg, s, round) then TurnTaken(s.pools[c], t.pools[c]) else t.pools[c] == s.pools[c])
            && (!Due(cfg, s, round) ==> t.overrides == s.overrides && t.perRound == s.perRound)
  {
    RoundsRotate(cfg, s, round, order);
    var t := OnNewRound(cfg, s, round, order);
    forall c | c in s.pools && Due(cfg, s, round) ensures TurnTaken(s.pools[c], t.pools[c]) {
      RotatingMeans(s.pools[c]);
    }
  }
}
