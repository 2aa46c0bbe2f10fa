/** Due requests can be executed in any order. */
module StakingOrder {
  import opened Integers
  import opened Xcm
  import opened SortedRows
  import opened Staking
  import opened StakingInvariant
  import opened StakingPreservation
  import opened StakingRuns

  datatype Pair = Pair(collator: Account, delegator: Account)

  function ExecuteAll(cfg: Config, s: State, order: seq<Pair>): (State, bool)
    decreases |order|
  {
    if order == [] then (s, true)
    else
      var (next, r) := Execute(cfg, s, order[0].collator, order[0].delegator);
      var (last, ok) := ExecuteAll(cfg, next, order[1..]);
      (last, r.Ok? && ok)
  }

  ghost predicate Due(s: State, p: Pair) {
    && Requested(s, p.collator, p.delegator).Some?
    && Requested(s, p.collator, p.delegator).value.whenExecutable <= s.round
  }

  ghost predicate Distinct(order: seq<Pair>) {
    forall i, j :: 0 <= i < j < |order| ==> order[i] != order[j]
  }

  ghost predicate Ready(cfg: Config, s: State, order: seq<Pair>) {
    && Inv(cfg, s)
    && Distinct(order)
    && (forall i :: 0 <= i < |order| ==> Due(s, order[i]))
  }

  function After(cfg: Config, s: State, p: Pair): State {
    Execute(cfg, s, p.collator, p.delegator).0
  }

  /** Executing one due request succeeds and leaves every other one due, with the same bond. */
  lemma AfterKeepsDue(cfg: Config, s: State, p: Pair, q: Pair)
    requires Inv(cfg, s) && Due(s, p) && Due(s, q) && p != q
    ensures Execute(cfg, s, p.collator, p.delegator).1.Ok?
    ensures Inv(cfg, After(cfg, s, p)) && Due(After(cfg, s, p), q)
    ensures Requested(After(cfg, s, p), q.collator, q.delegator) == Requested(s, q.collator, q.delegator)
    ensures Bonded(After(cfg, s, p), q.delegator, q.collator) == Bonded(s, q.delegator, q.collator)
  {
    DueRequestExecutes(cfg, s, p.collator, p.delegator);
    ExecuteKeeps(cfg, s, p.collator, p.delegator);
    ExecuteMeans(cfg, s, p.collator, p.delegator);
  }

  // ---------- The effect of an execution, component by component ----------

  function RequestsAfter(requests: Requests, p: Pair): Requests {
    requests[p.collator := WithoutRequest(RequestsFor(requests, p.collator), p.delegator)]
  }

  function AutoAfter(autoCompounds: AutoCompounds, p: Pair, action: DelegationAction): AutoCompounds {
    if action.Revoke? then RemoveAutoCompound(autoCompounds, p.collator, p.delegator) else autoCompounds
  }

  function BondsAfter(bonds: seq<Bond>, collator: Account, action: DelegationAction): seq<Bond> {
    match action
    case Revoke(_) => Drop(bonds, collator)
    case Decrease(amount) => Put(bonds, collator, SaturatingSub(Lookup<nat>(bonds, collator).GetOr(0), amount))
  }

  function RecordAfter(d: Delegator, collator: Account, action: DelegationAction): Delegator {
    d.(delegations := BondsAfter(d.delegations, collator, action),
       total := SaturatingSub(d.total, action.amount),
       lessTotal := SaturatingSub(d.lessTotal, action.amount))
  }

  /** The record goes away exactly when its last bond does. */
  function DelegatorsAfter(delegators: map<Account, Delegator>, p: Pair, action: DelegationAction)
    : map<Account, Delegator>
    requires p.delegator in delegators
  {
    var next := RecordAfter(delegators[p.delegator], p.collator, action);
    if next.delegations == [] then delegators - {p.delegator} else delegators[p.delegator := next]
  }

  lemma ExecuteIsComponentwise(cfg: Config, s: State, p: Pair)
    requires Inv(cfg, s) && Due(s, p)
    ensures p.delegator in s.delegators
    ensures var action := Requested(s, p.collator, p.delegator).value.action;
            After(cfg, s, p) == s.(
              requests := RequestsAfter(s.requests, p),
              autoCompounds := AutoAfter(s.autoCompounds, p, action),
              delegators := DelegatorsAfter(s.delegators, p, action))
  {
    var c, d := p.collator, p.delegator;
    DueRequestExecutes(cfg, s, c, d);
    assert PairOk(cfg, s, c, d);
    assert DelegatorOk(cfg, s, d);
    var bonds := s.delegators[d].delegations;
    DropLaws(bonds, c);
    PutLaws(bonds, c, 0);
  }

  // ---------- Components commute ----------

  lemma {:induction false} WithoutCommutes(list: seq<ScheduledRequest>, d: Account, e: Account)
    requires d != e
    ensures WithoutRequest(WithoutRequest(list, d), e) == WithoutRequest(WithoutRequest(list, e), d)
  {
    if list != [] {
      WithoutCommutes(list[1..], d, e);
      assert ([list[0]] + WithoutRequest(list[1..], d))[1..] == WithoutRequest(list[1..], d);
      assert ([list[0]] + WithoutRequest(list[1..], e))[1..] == WithoutRequest(list[1..], e);
    }
  }

  lemma RequestsCommute(requests: Requests, p: Pair, q: Pair)
    requires p != q
    ensures RequestsAfter(RequestsAfter(requests, p), q) == RequestsAfter(RequestsAfter(requests, q), p)
  {
    if p.collator == q.collator {
      WithoutCommutes(RequestsFor(requests, p.collator), p.delegator, q.delegator);
    }
  }

  lemma DropsCommute<V>(rows: seq<Row<V>>, k: nat, l: nat)
    requires Ascending(rows)
    ensures Drop(Drop(rows, k), l) == Drop(Drop(rows, l), k)
  {
  }

  lemma AutosCommute(autos: AutoCompounds, p: Pair, a: DelegationAction, q: Pair, b: DelegationAction)
    requires p != q && forall c :: Ascending(AutoCompoundFor(autos, c))
    ensures AutoAfter(AutoAfter(autos, p, a), q, b) == AutoAfter(AutoAfter(autos, q, b), p, a)
  {
    if a.Revoke? && b.Revoke? && p.collator == q.collator {
      var rows := AutoCompoundFor(autos, p.collator);
      DropLaws(rows, p.delegator);
      DropLaws(rows, q.delegator);
      DropsCommute(rows, p.delegator, q.delegator);
    }
  }

  lemma BondsAfterLaws(bonds: seq<Bond>, c: Account, a: DelegationAction)
    requires Ascending(bonds) && Lookup(bonds, c).Some?
    ensures Ascending(BondsAfter(bonds, c, a))
    ensures forall k :: k != c ==> Lookup(BondsAfter(bonds, c, a), k) == Lookup(bonds, k)
    ensures Lookup(BondsAfter(bonds, c, a), c)
         == if a.Revoke? then None else Some(SaturatingSub(Lookup(bonds, c).value, a.amount))
  {
    DropLaws(bonds, c);
    PutLaws(bonds, c, SaturatingSub(Lookup(bonds, c).value, a.amount));
  }

  lemma BondsCommute(bonds: seq<Bond>, c: Account, a: DelegationAction, k: Account, b: DelegationAction)
    requires Ascending(bonds) && c != k && Lookup(bonds, c).Some? && Lookup(bonds, k).Some?
    ensures BondsAfter(BondsAfter(bonds, c, a), k, b) == BondsAfter(BondsAfter(bonds, k, b), c, a)
    ensures BondsAfter(bonds, c, a) != []
  {
    BondsAfterLaws(bonds, c, a);
    BondsAfterLaws(bonds, k, b);
    BondsAfterLaws(BondsAfter(bonds, c, a), k, b);
    BondsAfterLaws(BondsAfter(bonds, k, b), c, a);
    Canonical(BondsAfter(BondsAfter(bonds, c, a), k, b), BondsAfter(BondsAfter(bonds, k, b), c, a));
    assert Lookup(BondsAfter(bonds, c, a), k).Some?;
  }

  lemma RecordsCommute(d: Delegator, c: Account, a: DelegationAction, k: Account, b: DelegationAction)
    requires c != k && Ascending(d.delegations)
    requires Lookup(d.delegations, c).Some? && Lookup(d.delegations, k).Some?
    ensures RecordAfter(RecordAfter(d, c, a), k, b) == RecordAfter(RecordAfter(d, k, b), c, a)
    ensures RecordAfter(d, c, a).delegations != [] && RecordAfter(d, k, b).delegations != []
  {
    BondsCommute(d.delegations, c, a, k, b);
    BondsCommute(d.delegations, k, b, c, a);
  }

  lemma DelegatorsCommute(m: map<Account, Delegator>, p: Pair, a: DelegationAction, q: Pair, b: DelegationAction)
    requires p != q && p.delegator in m && q.delegator in m
    requires var bonds := m[p.delegator].delegations; Ascending(bonds) && Lookup(bonds, p.collator).Some?
    requires var bonds := m[q.delegator].delegations; Ascending(bonds) && Lookup(bonds, q.collator).Some?
    ensures q.delegator in DelegatorsAfter(m, p, a) && p.delegator in DelegatorsAfter(m, q, b)
    ensures DelegatorsAfter(DelegatorsAfter(m, p, a), q, b) == DelegatorsAfter(DelegatorsAfter(m, q, b), p, a)
  {
    if p.delegator == q.delegator {
      RecordsCommute(m[p.delegator], p.collator, a, q.collator, b);
    } else {
      assert DelegatorsAfter(DelegatorsAfter(m, p, a), q, b) == DelegatorsAfter(DelegatorsAfter(m, q, b), p, a);
    }
  }

  lemma ExecutionsCommute(cfg: Config, s: State, p: Pair, q: Pair)
    requires Inv(cfg, s) && Due(s, p) && Due(s, q) && p != q
    ensures After(cfg, After(cfg, s, p), q) == After(cfg, After(cfg, s, q), p)
  {
    AfterKeepsDue(cfg, s, p, q);
    AfterKeepsDue(cfg, s, q, p);
    var sp, sq := After(cfg, s, p), After(cfg, s, q);
    ExecuteIsComponentwise(cfg, s, p);
    ExecuteIsComponentwise(cfg, s, q);
    ExecuteIsComponentwise(cfg, sp, q);
    ExecuteIsComponentwise(cfg, sq, p);
    var a, b := Requested(s, p.collator, p.delegator).value.action, Requested(s, q.collator, q.delegator).value.action;
    RequestsCommute(s.requests, p, q);
    forall c ensures Ascending(AutoCompoundFor(s.autoCompounds, c)) { assert AutoOk(s, c); }
    AutosCommute(s.autoCompounds, p, a, q, b);
    assert PairOk(cfg, s, p.collator, p.delegator) && PairOk(cfg, s, q.collator, q.delegator);
    assert DelegatorOk(cfg, s, p.delegator) && DelegatorOk(cfg, s, q.delegator);
    DelegatorsCommute(s.delegators, p, a, q, b);
  }

  // ---------- From two to any number ----------

  lemma ReadyTail(cfg: Config, s: State, order: seq<Pair>)
    requires order != [] && Ready(cfg, s, order)
    ensures Execute(cfg, s, order[0].collator, order[0].delegator).1.Ok?
    ensures Ready(cfg, After(cfg, s, order[0]), order[1..])
  {
    DueRequestExecutes(cfg, s, order[0].collator, order[0].delegator);
    ExecuteKeeps(cfg, s, order[0].collator, order[0].delegator);
    forall i | 0 <= i < |order[1..]| ensures Due(After(cfg, s, order[0]), order[1..][i]) {
      AfterKeepsDue(cfg, s, order[0], order[i + 1]);
    }
  }

  function Without(order: seq<Pair>, i: nat): seq<Pair>
    requires i < |order|
  {
    order[..i] + order[i + 1..]
  }

  lemma ReadyWithout(cfg: Config, s: State, order: seq<Pair>, i: nat)
    requires i < |order| && Ready(cfg, s, order)
    ensures Ready(cfg, After(cfg, s, order[i]), Without(order, i))
  {
    var x, rest := order[i], Without(order, i);
    DueRequestExecutes(cfg, s, x.collator, x.delegator);
    ExecuteKeeps(cfg, s, x.collator, x.delegator);
    forall j | 0 <= j < |rest| ensures Due(After(cfg, s, x), rest[j]) {
      var k := if j < i then j else j + 1;
      assert rest[j] == order[k];
      AfterKeepsDue(cfg, s, x, order[k]);
    }
  }

  lemma ExecuteAllStep(cfg: Config, s: State, order: seq<Pair>)
    requires order != [] && Ready(cfg, s, order)
    ensures Ready(cfg, After(cfg, s, order[0]), order[1..])
    ensures ExecuteAll(cfg, s, order) == ExecuteAll(cfg, After(cfg, s, order[0]), order[1..])
  {
    ReadyTail(cfg, s, order);
  }

  lemma WithoutTail(order: seq<Pair>, i: nat)
    requires 0 < i < |order|
    ensures Without(order, i) != [] && Without(order, i)[0] == order[0]
    ensures Without(order, i)[1..] == Without(order[1..], i - 1)
  {
  }

  /** Moving one request to the front changes nothing. */
  lemma {:induction false} MoveToFront(cfg: Config, s: State, order: seq<Pair>, i: nat)
    requires i < |order| && Ready(cfg, s, order)
    ensures ExecuteAll(cfg, s, order) == ExecuteAll(cfg, After(cfg, s, order[i]), Without(order, i))
    decreases i
  {
    ExecuteAllStep(cfg, s, order);
    if i == 0 {
      assert Without(order, 0) == order[1..];
    } else {
      var first, x := order[0], order[i];
      WithoutTail(order, i);
      MoveToFront(cfg, After(cfg, s, first), order[1..], i - 1);
      ExecutionsCommute(cfg, s, first, x);
      ReadyWithout(cfg, s, order, i);
      ExecuteAllStep(cfg, After(cfg, s, x), Without(order, i));
    }
  }

  lemma SameRest(a: seq<Pair>, b: seq<Pair>, i: nat)
    requires a != [] && i < |b| && b[i] == a[0] && multiset(a) == multiset(b)
    ensures multiset(a[1..]) == multiset(Without(b, i))
  {
    assert a == [a[0]] + a[1..];
    assert b == b[..i] + ([b[i]] + b[i + 1..]);
    assert multiset(b) == multiset(b[..i]) + (multiset{b[i]} + multiset(b[i + 1..]));
    assert multiset(a) == multiset{a[0]} + multiset(a[1..]);
    assert multiset(Without(b, i)) == multiset(b[..i]) + multiset(b[i + 1..]);
    forall p ensures multiset(a[1..])[p] == multiset(Without(b, i))[p] {
      assert multiset(a)[p] == multiset(b)[p];
    }
  }

  /** Any two orders of the same due requests succeed and end in the same state. */
  lemma {:induction false} ExecutionOrderIsIrrelevant(cfg: Config, s: State, a: seq<Pair>, b: seq<Pair>)
    requires Ready(cfg, s, a) && Ready(cfg, s, b) && multiset(a) == multiset(b)
    ensures ExecuteAll(cfg, s, a) == ExecuteAll(cfg, s, b)
    ensures ExecuteAll(cfg, s, a).1
    decreases |a|
  {
    if a == [] {
      assert |multiset(a)| == |multiset(b)|;
    } else {
      assert a[0] in multiset(b);
      var i :| 0 <= i < |b| && b[i] == a[0];
      ReadyTail(cfg, s, a);
      MoveToFront(cfg, s, b, i);
      ReadyWithout(cfg, s, b, i);
      SameRest(a, b, i);
      ExecutionOrderIsIrrelevant(cfg, After(cfg, s, a[0]), a[1..], Without(b, i));
    }
  }

  /** In particular in every reachable state. */
  lemma ReachableOrderIsIrrelevant(cfg: Config, calls: seq<Call>, a: seq<Pair>, b: seq<Pair>)
    requires cfg.minDelegation > 0 && AdmissibleRun(cfg, EMPTY, calls)
    requires Distinct(a) && Distinct(b) && multiset(a) == multiset(b)
    requires forall i :: 0 <= i < |a| ==> Due(Run(cfg, EMPTY, calls), a[i])
    ensures var s := Run(cfg, EMPTY, calls);
            ExecuteAll(cfg, s, a).1 && ExecuteAll(cfg, s, a) == ExecuteAll(cfg, s, b)
  {
    var s := Run(cfg, EMPTY, calls);
    Reachable(cfg, calls);
    forall i | 0 <= i < |b| ensures Due(s, b[i]) {
      assert b[i] in multiset(a);
      assert b[i] in a;
    }
    ExecutionOrderIsIrrelevant(cfg, s, a, b);
  }
}
