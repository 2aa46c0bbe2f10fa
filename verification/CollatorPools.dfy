/** `moonbeam-orbiters/src/types.rs`: the pool of orbiters of one collator.

    A pool is a vector with a pointer to the orbiter due next. Read from the pointer and wrapped
    around, it is a queue of turns: that is what the operations are proved to implement. */
module CollatorPools {
  import opened Sequences
  import opened Xcm

  type Account = nat

  datatype CurrentOrbiter = CurrentOrbiter(account: Account, removed: bool)

  datatype Pool = Pool(orbiters: seq<Account>, current: Option<CurrentOrbiter>, next: nat) {
    predicate Contains(orbiter: Account) {
      (current.Some? && current.value.account == orbiter) || orbiter in orbiters
    }
  }

  const EMPTY_POOL := Pool([], None, 0)

  datatype RemoveResult = OrbiterNotFound | OrbiterRemoved | OrbiterRemoveScheduled

  // ---------- The operations as functions ----------

  function Add(p: Pool, orbiter: Account): Pool {
    var at := if p.next > |p.orbiters| then 0 else p.next;
    p.(orbiters := p.orbiters[..at] + [orbiter] + p.orbiters[at..], next := at + 1)
  }

  function Without(orbiters: seq<Account>, orbiter: Account): seq<Account> {
    if orbiters == [] then []
    else if orbiters[0] == orbiter then orbiters[1..]
    else [orbiters[0]] + Without(orbiters[1..], orbiter)
  }

  function Remove(p: Pool, orbiter: Account): (Pool, RemoveResult) {
    if orbiter !in p.orbiters then (p, OrbiterNotFound)
    else
      var rest := p.(orbiters := Without(p.orbiters, orbiter));
      if p.current.Some? && p.current.value.account == orbiter
      then (rest.(current := Some(CurrentOrbiter(orbiter, true))), OrbiterRemoveScheduled)
      else (rest, OrbiterRemoved)
  }

  function Pointer(p: Pool): nat {
    if p.next >= |p.orbiters| then 0 else p.next
  }

  function NextOrbiter(p: Pool): Option<Account> {
    if p.orbiters == [] then None else Some(p.orbiters[Pointer(p)])
  }

  function Rotate(p: Pool): Pool {
    if p.orbiters == [] then p.(next := 0)
    else p.(current := Some(CurrentOrbiter(p.orbiters[Pointer(p)], false)), next := Pointer(p) + 1)
  }

  // ---------- The queue of turns ----------

  function Turns(p: Pool): seq<Account> {
    p.orbiters[Pointer(p)..] + p.orbiters[..Pointer(p)]
  }

  /** Those who have had their turn since the pointer last wrapped around. */
  function Served(p: Pool): seq<Account> {
    if p.next > |p.orbiters| then [] else p.orbiters[..p.next]
  }

  ghost predicate NoDuplicates(orbiters: seq<Account>) {
    forall i, j :: 0 <= i < j < |orbiters| ==> orbiters[i] != orbiters[j]
  }

  lemma {:induction false} WithoutAt(orbiters: seq<Account>, j: nat)
    requires j < |orbiters|
    requires forall i :: 0 <= i < j ==> orbiters[i] != orbiters[j]
    ensures Without(orbiters, orbiters[j]) == orbiters[..j] + orbiters[j + 1..]
  {
    if j > 0 {
      var rest := orbiters[1..];
      WithoutAt(rest, j - 1);
      assert rest[..j - 1] == orbiters[1..j] && rest[j..] == orbiters[j + 1..];
      assert orbiters[..j] == [orbiters[0]] + orbiters[1..j];
      Assoc([orbiters[0]], orbiters[1..j], orbiters[j + 1..]);
    }
  }

  lemma TurnsAhead(p: Pool, front: seq<Account>, back: seq<Account>)
    requires p.orbiters == front + back && Pointer(p) == |front|
    ensures Turns(p) == back + front
  {
  }

  /** A rotation serves the head of the queue and sends it to the back. */
  lemma RotateServesHead(p: Pool)
    requires p.orbiters != []
    ensures Served(Rotate(p)) == (if p.next < |p.orbiters| then Served(p) else []) + [Turns(p)[0]]
    ensures NextOrbiter(p) == Some(Turns(p)[0])
    ensures Rotate(p).current == Some(CurrentOrbiter(Turns(p)[0], false)) && Rotate(p).orbiters == p.orbiters
    ensures Turns(Rotate(p)) == Turns(p)[1..] + [Turns(p)[0]]
  {
    var at := Pointer(p);
    var front, head, back := p.orbiters[..at], p.orbiters[at], p.orbiters[at + 1..];
    assert p.orbiters == front + ([head] + back);
    TurnsAhead(p, front, [head] + back);
    assert Turns(p)[1..] == back + front;
    assert p.orbiters[..at + 1] == front + [head];
    if back == [] {
      TurnsAhead(Rotate(p), [], p.orbiters);
    } else {
      Assoc(front, [head], back);
      TurnsAhead(Rotate(p), front + [head], back);
      Assoc(back, front, [head]);
    }
  }

  /** An emptied pool has nobody to serve: whoever serves goes on serving. */
  lemma RotateEmptied(p: Pool)
    requires p.orbiters == []
    ensures Rotate(p).orbiters == [] && Rotate(p).current == p.current
  {
  }

  /** A newcomer goes to the back of the queue, as if it had had its turn; nobody else moves. */
  lemma AddGoesLast(p: Pool, orbiter: Account)
    ensures Served(Add(p, orbiter)) == Served(p) + [orbiter]
    ensures Turns(Add(p, orbiter)) == Turns(p) + [orbiter]
    ensures Add(p, orbiter).current == p.current
  {
    var at := if p.next > |p.orbiters| then 0 else p.next;
    var front, back := p.orbiters[..at], p.orbiters[at..];
    if back == [] {
      assert front + [orbiter] + back == p.orbiters + [orbiter];
      TurnsAhead(p, [], p.orbiters);
      TurnsAhead(Add(p, orbiter), [], p.orbiters + [orbiter]);
    } else {
      TurnsAhead(p, front, back);
      TurnsAhead(Add(p, orbiter), front + [orbiter], back);
      Assoc(back, front, [orbiter]);
    }
  }

  lemma {:induction false} WithoutSplit(left: seq<Account>, orbiter: Account, right: seq<Account>)
    requires orbiter !in left
    ensures Without(left + [orbiter] + right, orbiter) == left + right
  {
    var xs := left + [orbiter] + right;
    if left == [] {
      assert xs == [orbiter] + right;
      assert [] + right == right;
    } else {
      assert xs[1..] == left[1..] + [orbiter] + right;
      WithoutSplit(left[1..], orbiter, right);
      assert left == [left[0]] + left[1..];
    }
  }

  lemma TurnsSplit(q: Pool, front: seq<Account>, back: seq<Account>)
    requires q.orbiters == front + back && (q.next == |front| || (front == [] && q.next > |back|))
    ensures Turns(q) == back + front
  {
  }

  /** The orbiter sits before the pointer, at which `head` is due. */
  lemma TurnsBehindPointer(p: Pool, a: seq<Account>, orbiter: Account, b: seq<Account>, head: Account, c: seq<Account>)
    requires p.orbiters == (a + [orbiter] + b) + ([head] + c) && p.next == |a| + 1 + |b|
    requires orbiter !in a && orbiter !in c && orbiter != head
    ensures Without(Turns(p), orbiter) == [head] + (c + a + b)
  {
    TurnsSplit(p, a + [orbiter] + b, [head] + c);
    var left := [head] + c + a;
    assert ([head] + c) + (a + [orbiter] + b) == left + [orbiter] + b;
    WithoutSplit(left, orbiter, b);
  }

  lemma RemoveBehindPointer(p: Pool, a: seq<Account>, orbiter: Account, b: seq<Account>, head: Account, c: seq<Account>)
    requires p.orbiters == a + [orbiter] + (b + [head] + c) && p.next == |a| + 1 + |b|
    requires orbiter !in a
    ensures Turns(Remove(p, orbiter).0) == (c + a + b) + [head]
  {
    var front, rest := a + b + [head], b + [head] + c;
    assert orbiter in p.orbiters by { assert orbiter == p.orbiters[|a|]; }
    WithoutSplit(a, orbiter, rest);
    Regroup(a, b, head, c);
    TurnsSplit(Remove(p, orbiter).0, front, c);
  }

  lemma Regroup(a: seq<Account>, b: seq<Account>, head: Account, c: seq<Account>)
    ensures a + (b + [head] + c) == (a + b + [head]) + c
    ensures c + (a + b + [head]) == (c + a + b) + [head]
  {
  }

  /** The orbiter sits at or after the pointer, in `b + [orbiter] + c`. */
  lemma RemoveAheadOfPointer(p: Pool, a: seq<Account>, b: seq<Account>, orbiter: Account, c: seq<Account>)
    requires p.orbiters == a + b + [orbiter] + c && Pointer(p) == |a|
    requires orbiter !in a && orbiter !in b
    ensures Turns(Remove(p, orbiter).0) == Without(Turns(p), orbiter)
  {
    TurnsOfThree(p, a, b + [orbiter], c, b, orbiter);
    WithoutAhead(a, b, orbiter, c);
    assert p.orbiters[|a| + |b|] == orbiter;
    TurnsSplit(Remove(p, orbiter).0, a, b + c);
  }

  lemma TurnsOfThree(p: Pool, a: seq<Account>, middle: seq<Account>, c: seq<Account>, b: seq<Account>, orbiter: Account)
    requires p.orbiters == a + b + [orbiter] + c && middle == b + [orbiter] && Pointer(p) == |a|
    ensures Turns(p) == (b + [orbiter] + c) + a
  {
    Assoc(a, b, [orbiter]);
    Assoc(a, middle, c);
    TurnsAhead(p, a, middle + c);
  }

  lemma WithoutAhead(a: seq<Account>, b: seq<Account>, orbiter: Account, c: seq<Account>)
    requires orbiter !in a && orbiter !in b
    ensures Without(a + b + [orbiter] + c, orbiter) == a + (b + c)
    ensures Without((b + [orbiter] + c) + a, orbiter) == (b + c) + a
  {
    WithoutSplit(a + b, orbiter, c);
    Assoc(a, b, c);
    WithoutSplit(b, orbiter, c + a);
    Assoc(b + [orbiter], c, a);
    Assoc(b, c, a);
  }

  /** A removal takes the orbiter out of the queue. When its slot lies before the pointer, the orbiter
      due next is also passed over: it moves to the back, and everyone else keeps the order. */
  lemma RemoveSkipsAtMostOne(p: Pool, j: nat)
    requires j < |p.orbiters| && NoDuplicates(p.orbiters)
    ensures var after, rest := Turns(Remove(p, p.orbiters[j]).0), Without(Turns(p), p.orbiters[j]);
            if j < Pointer(p) then rest != [] && rest[0] == Turns(p)[0] && after == rest[1..] + [rest[0]]
            else after == rest
  {
    if j < Pointer(p) {
      RemovalSkips(p, j);
    } else {
      var xs, at := p.orbiters, Pointer(p);
      assert xs == xs[..at] + xs[at..j] + [xs[j]] + xs[j + 1..];
      RemoveAheadOfPointer(p, xs[..at], xs[at..j], xs[j], xs[j + 1..]);
    }
  }

  lemma RemovalSkips(p: Pool, j: nat)
    requires j < Pointer(p) && NoDuplicates(p.orbiters)
    ensures var after, rest := Turns(Remove(p, p.orbiters[j]).0), Without(Turns(p), p.orbiters[j]);
            rest != [] && rest[0] == Turns(p)[0] && after == rest[1..] + [rest[0]]
  {
    var xs, at := p.orbiters, Pointer(p);
    var a, b, c := xs[..j], xs[j + 1..at], xs[at + 1..];
    assert xs == (a + [xs[j]] + b) + ([xs[at]] + c);
    Assoc(a + [xs[j]], b, [xs[at]] + c);
    Assoc(b, [xs[at]], c);
    TurnsBehindPointer(p, a, xs[j], b, xs[at], c);
    RemoveBehindPointer(p, a, xs[j], b, xs[at], c);
    assert Turns(p)[0] == xs[at];
  }

  // ---------- Fairness over runs ----------

  datatype Turn = Rotation | Arrival(orbiter: Account) | Departure(orbiter: Account)

  function AfterTurn(p: Pool, turn: Turn): Pool {
    match turn
    case Rotation => Rotate(p)
    case Arrival(o) => Add(p, o)
    case Departure(o) => Remove(p, o).0
  }

  /** The orbiters selected by the rotations of a run, in order. */
  function Selections(p: Pool, run: seq<Turn>): seq<Account>
    decreases |run|
  {
    if run == [] then []
    else
      var later := Selections(AfterTurn(p, run[0]), run[1..]);
      if run[0].Rotation? && p.orbiters != [] then [NextOrbiter(p).value] + later else later
  }

  function AfterRun(p: Pool, run: seq<Turn>): Pool
    decreases |run|
  {
    if run == [] then p else AfterRun(AfterTurn(p, run[0]), run[1..])
  }

  /** The orbiter with `k` others before it is selected at exactly the rotation number `k + 1`,
      whoever joins meanwhile, as long as nobody leaves. */
  lemma {:induction false} SelectedInTurn(p: Pool, run: seq<Turn>, k: nat)
    requires k < |p.orbiters| && k < |Selections(p, run)|
    requires forall i :: 0 <= i < |run| ==> !run[i].Departure?
    ensures Selections(p, run)[k] == Turns(p)[k]
    decreases |run|
  {
    var next := AfterTurn(p, run[0]);
    match run[0] {
      case Rotation =>
        RotateServesHead(p);
        if k > 0 {
          SelectedInTurn(next, run[1..], k - 1);
        }
      case Arrival(o) =>
        AddGoesLast(p, o);
        assert |next.orbiters| == |p.orbiters| + 1;
        SelectedInTurn(next, run[1..], k);
    }
  }

  /** A removal passes over the orbiter due next when the removed one sat before the pointer. */
  predicate PassesOver(p: Pool, turn: Turn, o: Account) {
    && turn.Departure? && turn.orbiter in p.orbiters[..Pointer(p)]
    && Turns(p) != [] && Turns(p)[0] == o
  }

  /** Newcomers are new, `o` stays, and no removal passes over it. */
  ghost predicate Undisturbed(p: Pool, run: seq<Turn>, o: Account)
    decreases |run|
  {
    run == [] ||
      (&& (run[0].Arrival? ==> run[0].orbiter !in p.orbiters)
       && run[0] != Departure(o) && !PassesOver(p, run[0], o)
       && Undisturbed(AfterTurn(p, run[0]), run[1..], o))
  }

  lemma {:induction false} WithoutKeeps(orbiters: seq<Account>, o: Account)
    ensures forall a :: a != o ==> (a in Without(orbiters, o) <==> a in orbiters)
    ensures forall a :: a in Without(orbiters, o) ==> a in orbiters
    ensures |Without(orbiters, o)| <= |orbiters|
  {
    if orbiters != [] {
      WithoutKeeps(orbiters[1..], o);
    }
  }

  lemma {:induction false} WithoutDistinct(orbiters: seq<Account>, o: Account)
    requires NoDuplicates(orbiters)
    ensures NoDuplicates(Without(orbiters, o)) && o !in Without(orbiters, o)
  {
    if orbiters != [] {
      WithoutDistinct(orbiters[1..], o);
      WithoutKeeps(orbiters[1..], o);
      forall j | 0 <= j < |Without(orbiters[1..], o)| ensures orbiters[0] != Without(orbiters[1..], o)[j] {
        assert Without(orbiters[1..], o)[j] in orbiters[1..];
      }
    }
  }

  lemma {:induction false} WithoutShifts(xs: seq<Account>, x: Account, k: nat) returns (i: nat)
    requires k < |xs| && xs[k] != x
    ensures i <= k < i + 2 && i < |Without(xs, x)| && Without(xs, x)[i] == xs[k]
    ensures k > 0 && xs[0] == Without(xs, x)[0] && (forall a, b :: 0 <= a < b < |xs| ==> xs[a] != xs[b]) ==> i > 0
  {
    if xs[0] == x {
      i := k - 1;
    } else if k == 0 {
      i := 0;
    } else {
      var rest := WithoutShifts(xs[1..], x, k - 1);
      i := rest + 1;
    }
  }

  lemma TurnsAreDistinct(p: Pool)
    requires NoDuplicates(p.orbiters)
    ensures NoDuplicates(Turns(p)) && |Turns(p)| == |p.orbiters|
    ensures forall a :: a in Turns(p) <==> a in p.orbiters
  {
    var at, n := Pointer(p), |p.orbiters|;
    forall i | 0 <= i < n ensures Turns(p)[i] == p.orbiters[if i < n - at then at + i else i - (n - at)] {}
    assert p.orbiters == p.orbiters[..at] + p.orbiters[at..];
  }

  /** The head of the queue is passed over and everyone else moves up by one. */
  lemma BehindPointerShortens(p: Pool, j: nat, k: nat) returns (i: nat)
    requires NoDuplicates(p.orbiters) && j < Pointer(p) && 0 < k < |p.orbiters| && Turns(p)[k] != p.orbiters[j]
    ensures var turns := Turns(Remove(p, p.orbiters[j]).0);
            i <= k && i < |turns| && turns[i] == Turns(p)[k]
  {
    TurnsAreDistinct(p);
    RemoveSkipsAtMostOne(p, j);
    var rest := Without(Turns(p), p.orbiters[j]);
    var at := WithoutShifts(Turns(p), p.orbiters[j], k);
    i := at - 1;
    assert (rest[1..] + [rest[0]])[i] == rest[at];
  }

  lemma AheadOfPointerShortens(p: Pool, j: nat, k: nat) returns (i: nat)
    requires NoDuplicates(p.orbiters) && Pointer(p) <= j < |p.orbiters| && k < |p.orbiters|
    requires Turns(p)[k] != p.orbiters[j]
    ensures var turns := Turns(Remove(p, p.orbiters[j]).0);
            i <= k && i < |turns| && turns[i] == Turns(p)[k]
  {
    RemoveSkipsAtMostOne(p, j);
    i := WithoutShifts(Turns(p), p.orbiters[j], k);
  }

  /** After a removal that leaves `o` alone and does not pass over it, `o` waits no longer than before. */
  lemma DepartureShortens(p: Pool, x: Account, o: Account, k: nat) returns (i: nat)
    requires NoDuplicates(p.orbiters) && k < |p.orbiters| && Turns(p)[k] == o
    requires x != o && !PassesOver(p, Departure(x), o)
    ensures var q := Remove(p, x).0;
            i <= k && i < |q.orbiters| && NoDuplicates(q.orbiters) && Turns(q)[i] == o
  {
    if x !in p.orbiters {
      i := k;
    } else {
      WithoutDistinct(p.orbiters, x);
      TurnsAreDistinct(Remove(p, x).0);
      var j :| 0 <= j < |p.orbiters| && p.orbiters[j] == x;
      if j < Pointer(p) {
        assert p.orbiters[..Pointer(p)][j] == x;
        i := BehindPointerShortens(p, j, k);
      } else {
        i := AheadOfPointerShortens(p, j, k);
      }
    }
  }

  /** An orbiter with `k` others before it, that stays and is passed over by no removal, is selected at the
      rotation number `k + 1` at the latest, whoever else joins or leaves. */
  lemma {:induction false} SelectedInTime(p: Pool, run: seq<Turn>, o: Account, k: nat) returns (i: nat)
    requires NoDuplicates(p.orbiters) && k < |p.orbiters| && Turns(p)[k] == o
    requires Undisturbed(p, run, o) && k < |Selections(p, run)|
    ensures i <= k && Selections(p, run)[i] == o
    decreases |run|
  {
    var next, rest := AfterTurn(p, run[0]), run[1..];
    match run[0] {
      case Rotation =>
        RotateServesHead(p);
        if k == 0 {
          i := 0;
        } else {
          var later := SelectedInTime(next, rest, o, k - 1);
          i := later + 1;
        }
      case Arrival(x) =>
        AddGoesLast(p, x);
        ArrivalIsDistinct(p, x);
        i := SelectedInTime(next, rest, o, k);
      case Departure(x) =>
        var at := DepartureShortens(p, x, o, k);
        i := SelectedInTime(next, rest, o, at);
    }
  }

  lemma ArrivalIsDistinct(p: Pool, x: Account)
    requires NoDuplicates(p.orbiters) && x !in p.orbiters
    ensures NoDuplicates(Add(p, x).orbiters) && |Add(p, x).orbiters| == |p.orbiters| + 1
  {
  }

  function Rotations(n: nat): seq<Turn> {
    if n == 0 then [] else [Rotation] + Rotations(n - 1)
  }

  lemma {:induction false} RotationsSelect(p: Pool, n: nat)
    requires p.orbiters != []
    ensures |Selections(p, Rotations(n))| == n
    ensures AfterRun(p, Rotations(n)).orbiters == p.orbiters
    ensures |Rotations(n)| == n && forall i :: 0 <= i < n ==> Rotations(n)[i] == Rotation
    decreases n
  {
    if n > 0 {
      assert Rotations(n)[1..] == Rotations(n - 1);
      RotationsSelect(Rotate(p), n - 1);
    }
  }

  /** As many rotations as there are orbiters select each of them once. */
  lemma FullCycleIsPermutation(p: Pool)
    requires p.orbiters != []
    ensures Selections(p, Rotations(|p.orbiters|)) == Turns(p)
    ensures multiset(Selections(p, Rotations(|p.orbiters|))) == multiset(p.orbiters)
  {
    FullCycleServesAll(p);
    TurnsArePermutation(p);
  }

  lemma FullCycleServesAll(p: Pool)
    requires p.orbiters != []
    ensures Selections(p, Rotations(|p.orbiters|)) == Turns(p)
  {
    var n := |p.orbiters|;
    RotationsSelect(p, n);
    forall k | 0 <= k < n ensures Selections(p, Rotations(n))[k] == Turns(p)[k] {
      SelectedInTurn(p, Rotations(n), k);
    }
  }

  lemma TurnsArePermutation(p: Pool)
    ensures multiset(Turns(p)) == multiset(p.orbiters)
  {
    var front, back := p.orbiters[..Pointer(p)], p.orbiters[Pointer(p)..];
    assert p.orbiters == front + back;
    assert multiset(back + front) == multiset(back) + multiset(front);
  }

  // ---------- The mutable pool ----------

  class CollatorPoolInfo {
    var orbiters: seq<Account>
    var current: Option<CurrentOrbiter>
    var next: nat

    function Value(): Pool
      reads this
    {
      Pool(orbiters, current, next)
    }

    constructor (p: Pool)
      ensures Value() == p
    {
      orbiters, current, next := p.orbiters, p.current, p.next;
    }

    method AddOrbiter(orbiter: Account)
      modifies this
      ensures Value() == Add(old(Value()), orbiter)
      ensures Turns(Value()) == Turns(old(Value())) + [orbiter]
    {
      AddGoesLast(Value(), orbiter);
      if next > |orbiters| {
        next := 0;
      }
      orbiters := orbiters[..next] + [orbiter] + orbiters[next..];
      next := next + 1;
    }

    method ContainsOrbiter(orbiter: Account) returns (r: bool)
      ensures r <==> Value().Contains(orbiter)
    {
      if current.Some? && current.value.account == orbiter {
        return true;
      }
      for i := 0 to |orbiters|
        invariant orbiter !in orbiters[..i]
      {
        if orbiters[i] == orbiter {
          return true;
        }
      }
      return false;
    }

    method RemoveOrbiter(orbiter: Account) returns (r: RemoveResult)
      modifies this
      ensures (Value(), r) == Remove(old(Value()), orbiter)
    {
      var found := false;
      var index := 0;
      while index < |orbiters| && !found
        invariant 0 <= index <= |orbiters|
        invariant current == old(current) && next == old(next)
        invariant !found ==> orbiters == old(orbiters) && orbiter !in orbiters[..index]
        invariant found ==> orbiter in old(orbiters) && orbiters == Without(old(orbiters), orbiter)
        decreases if found then 0 else |orbiters| - index + 1
      {
        if orbiters[index] == orbiter {
          WithoutAt(orbiters, index);
          orbiters := orbiters[..index] + orbiters[index + 1..];
          found := true;
          break;
        }
        index := index + 1;
      }
      if found {
        if current.Some? && current.value.account == orbiter {
          current := Some(current.value.(removed := true));
          return OrbiterRemoveScheduled;
        }
        return OrbiterRemoved;
      }
      return OrbiterNotFound;
    }

    method RotateOrbiter() returns (previous: Option<CurrentOrbiter>, selected: Option<Account>)
      modifies this
      ensures previous == old(current) && selected == NextOrbiter(old(Value()))
      ensures Value() == Rotate(old(Value()))
    {
      previous := current;
      if next >= |orbiters| {
        next := 0;
      }
      if next < |orbiters| {
        var orbiter := orbiters[next];
        current := Some(CurrentOrbiter(orbiter, false));
        next := next + 1;
        selected := Some(orbiter);
      } else {
        selected := None;
      }
    }
  }
}
