/** The deferred withdrawals of the bridge refine the plain design its comments describe, in which
    a withdrawal moves the tokens to a holding account and a deposit pays from that account. */
module EagerWithdrawal {
  import opened Xcm
  import opened XcmHolding
  import opened Erc20Bridge

  datatype Op =
    | Withdraw(contract: Address, who: Address, amount: nat)
    | DepositTo(contract: Address, to: Address, amount: nat)
    | InternalTransfer(contract: Address, from: Address, to: Address, amount: nat)

  // ---------- The two machines ----------

  datatype Deferred = Deferred(ledger: Ledger, origins: Origins)

  datatype Eager = Eager(ledger: Ledger, holding: map<Address, nat>)

  function DeferredStep(s: Deferred, op: Op): (Deferred, bool) {
    match op
    case Withdraw(c, who, amount) => (s.(origins := InsertInto(s.origins, c, who, amount)), true)
    case DepositTo(c, to, amount) =>
      var (ledger, origins, r) := Deposit(s.ledger, s.origins, c, to, amount);
      (Deferred(ledger, origins), r.Ok?)
    case InternalTransfer(c, from, to, amount) =>
      match Erc20Transfer(s.ledger, c, from, to, amount)
      case None => (s, false)
      case Some(ledger) => (s.(ledger := ledger), true)
  }

  function Held(e: Eager, contract: Address): nat {
    if contract in e.holding then e.holding[contract] else 0
  }

  function EagerStep(e: Eager, op: Op): (Eager, bool) {
    match op
    case Withdraw(c, who, amount) =>
      var b := Balance(e.ledger, c, who);
      if b < amount then (e, false)
      else (Eager(e.ledger[(c, who) := b - amount], e.holding[c := Held(e, c) + amount]), true)
    case DepositTo(c, to, amount) =>
      if Held(e, c) < amount then (e, false)
      else (Eager(e.ledger[(c, to) := Balance(e.ledger, c, to) + amount], e.holding[c := Held(e, c) - amount]), true)
    case InternalTransfer(c, from, to, amount) =>
      match Erc20Transfer(e.ledger, c, from, to, amount)
      case None => (e, false)
      case Some(ledger) => (e.(ledger := ledger), true)
  }

  // ---------- The relation ----------

  /** What `account` has recorded in the queue and not yet paid. */
  function Pending(entries: seq<Entry>, account: Address): nat {
    if entries == [] then 0
    else (if entries[0].holder == account then entries[0].amount else 0) + Pending(entries[1..], account)
  }

  ghost predicate Related(s: Deferred, e: Eager) {
    && (forall c, a :: Balance(s.ledger, c, a) == Balance(e.ledger, c, a) + Pending(Queue(s.origins, c), a))
    && (forall c :: Held(e, c) == Total(Queue(s.origins, c)))
  }

  lemma {:induction false} PendingConcat(xs: seq<Entry>, ys: seq<Entry>, a: Address)
    ensures Pending(xs + ys, a) == Pending(xs, a) + Pending(ys, a)
  {
    if xs == [] {
      assert xs + ys == ys;
    } else {
      PendingConcat(xs[1..], ys, a);
      assert (xs + ys)[1..] == xs[1..] + ys;
    }
  }

  lemma {:induction false} PendingAtMostTotal(xs: seq<Entry>, a: Address)
    ensures Pending(xs, a) <= Total(xs)
  {
    if xs != [] {
      PendingAtMostTotal(xs[1..], a);
    }
  }

  // ---------- When and how a batch of transfers succeeds ----------

  /** Every account can pay what it owes in `tokens`; the beneficiary may use what it has already
      received, any other account only its own balance. */
  ghost predicate Payable(ledger: Ledger, c: Address, tokens: seq<Entry>, to: Address) {
    && (forall a :: a != to ==> Pending(tokens, a) <= Balance(ledger, c, a))
    && (forall i :: 0 <= i < |tokens| && tokens[i].holder == to ==>
          tokens[i].amount <= Balance(ledger, c, to) + Total(tokens[..i]) - Pending(tokens[..i], to))
  }

  lemma TransferMoves(ledger: Ledger, c: Address, from: Address, to: Address, amount: nat)
    requires amount <= Balance(ledger, c, from)
    ensures Erc20Transfer(ledger, c, from, to, amount).Some?
    ensures var after := Erc20Transfer(ledger, c, from, to, amount).value;
            forall d, a :: Balance(after, d, a)
              == Balance(ledger, d, a) - (if d == c && a == from then amount else 0)
                                       + (if d == c && a == to then amount else 0)
  {
  }

  lemma PrefixShift(tokens: seq<Entry>, i: nat, to: Address)
    requires 0 < i <= |tokens|
    ensures Total(tokens[..i]) == tokens[0].amount + Total(tokens[1..][..i - 1])
    ensures Pending(tokens[..i], to)
         == (if tokens[0].holder == to then tokens[0].amount else 0) + Pending(tokens[1..][..i - 1], to)
  {
    assert tokens[..i][1..] == tokens[1..][..i - 1];
  }

  /** The first transfer of a batch neither makes nor breaks the payability of the rest. */
  lemma PayableRest(ledger: Ledger, c: Address, tokens: seq<Entry>, to: Address, after: Ledger)
    requires tokens != [] && Erc20Transfer(ledger, c, tokens[0].holder, to, tokens[0].amount) == Some(after)
    ensures Payable(ledger, c, tokens, to) <==> Payable(after, c, tokens[1..], to)
  {
    var first, rest := tokens[0], tokens[1..];
    TransferMoves(ledger, c, first.holder, to, first.amount);
    forall i | 0 <= i < |rest|
      ensures Total(tokens[..i + 1]) - Pending(tokens[..i + 1], to) + Balance(ledger, c, to)
           == Total(rest[..i]) - Pending(rest[..i], to) + Balance(after, c, to)
      ensures rest[i] == tokens[i + 1]
    {
      PrefixShift(tokens, i + 1, to);
    }
    if Payable(after, c, rest, to) {
      forall i | 0 <= i < |tokens| && tokens[i].holder == to
        ensures tokens[i].amount <= Balance(ledger, c, to) + Total(tokens[..i]) - Pending(tokens[..i], to)
      {
        if i > 0 {
          assert tokens[i] == rest[i - 1];
          assert Total(tokens[..i - 1 + 1]) - Pending(tokens[..i - 1 + 1], to) + Balance(ledger, c, to)
              == Total(rest[..i - 1]) - Pending(rest[..i - 1], to) + Balance(after, c, to);
          assert tokens[..i - 1 + 1] == tokens[..i];
        }
      }
    }
  }

  lemma {:induction false} TransferAllExactly(ledger: Ledger, c: Address, tokens: seq<Entry>, to: Address)
    ensures TransferAll(ledger, c, tokens, to).Some? <==> Payable(ledger, c, tokens, to)
    ensures TransferAll(ledger, c, tokens, to).Some? ==>
      forall d, a :: Balance(TransferAll(ledger, c, tokens, to).value, d, a)
        == Balance(ledger, d, a) - (if d == c then Pending(tokens, a) else 0)
                                 + (if d == c && a == to then Total(tokens) else 0)
    decreases |tokens|
  {
    if tokens != [] {
      var first := tokens[0];
      match Erc20Transfer(ledger, c, first.holder, to, first.amount) {
        case None =>
          assert first.amount <= Pending(tokens, first.holder);
          assert Total(tokens[..0]) == 0 && Pending(tokens[..0], to) == 0;
        case Some(after) =>
          TransferMoves(ledger, c, first.holder, to, first.amount);
          PayableRest(ledger, c, tokens, to, after);
          TransferAllExactly(after, c, tokens[1..], to);
      }
    }
  }

  /** If every account covers its pending entries, any batch drained from the queue can be paid. */
  lemma CoveredIsPayable(ledger: Ledger, c: Address, tokens: seq<Entry>, to: Address)
    requires forall a :: Pending(tokens, a) <= Balance(ledger, c, a)
    ensures Payable(ledger, c, tokens, to)
  {
    forall i | 0 <= i < |tokens| && tokens[i].holder == to
      ensures tokens[i].amount <= Balance(ledger, c, to) + Total(tokens[..i]) - Pending(tokens[..i], to)
    {
      assert tokens == tokens[..i] + tokens[i..];
      PendingConcat(tokens[..i], tokens[i..], to);
      PendingAtMostTotal(tokens[..i], to);
    }
  }

  // ---------- One step ----------

  /** The condition, on the deferred state alone, under which the two designs agree. */
  ghost predicate Covered(s: Deferred, op: Op) {
    match op
    case Withdraw(c, who, amount) => amount + Pending(Queue(s.origins, c), who) <= Balance(s.ledger, c, who)
    case DepositTo(c, to, amount) => HasMatch(Queue(s.origins, c), amount)
    case InternalTransfer(c, from, to, amount) =>
      amount + Pending(Queue(s.origins, c), from) <= Balance(s.ledger, c, from)
  }

  /** The ledger after each of these entries was paid to `to`. */
  ghost predicate PaidOut(before: Ledger, after: Ledger, c: Address, to: Address, tokens: seq<Entry>) {
    forall d, a :: Balance(after, d, a)
                == Balance(before, d, a) - (if d == c then Pending(tokens, a) else 0)
                                         + (if d == c && a == to then Total(tokens) else 0)
  }

  /** The front of a queue can be paid out, and the payment moves each entry once. */
  lemma DrainedIsPaid(s: Deferred, e: Eager, c: Address, to: Address, tokens: seq<Entry>, rest: seq<Entry>)
    requires Related(s, e) && Queue(s.origins, c) == tokens + rest
    ensures forall a :: Pending(tokens + rest, a) == Pending(tokens, a) + Pending(rest, a)
    ensures TransferAll(s.ledger, c, tokens, to).Some?
    ensures PaidOut(s.ledger, TransferAll(s.ledger, c, tokens, to).value, c, to, tokens)
  {
    forall a ensures Pending(tokens + rest, a) == Pending(tokens, a) + Pending(rest, a) {
      PendingConcat(tokens, rest, a);
    }
    forall a ensures Pending(tokens, a) <= Balance(s.ledger, c, a) {
      assert Balance(s.ledger, c, a) == Balance(e.ledger, c, a) + Pending(Queue(s.origins, c), a);
    }
    CoveredIsPayable(s.ledger, c, tokens, to);
    TransferAllExactly(s.ledger, c, tokens, to);
  }

  /** Paying the front of the queue and paying from the holding keep the designs related. */
  lemma PaymentRelates(s: Deferred, e: Eager, c: Address, to: Address, tokens: seq<Entry>, rest: seq<Entry>,
                       paid: Ledger)
    requires Related(s, e) && Queue(s.origins, c) == tokens + rest && PaidOut(s.ledger, paid, c, to, tokens)
    requires forall a :: Pending(tokens + rest, a) == Pending(tokens, a) + Pending(rest, a)
    requires Total(tokens + rest) == Total(tokens) + Total(rest)
    ensures Related(Deferred(paid, s.origins[c := rest]),
                    Eager(e.ledger[(c, to) := Balance(e.ledger, c, to) + Total(tokens)], e.holding[c := Total(rest)]))
  {
    var s1 := Deferred(paid, s.origins[c := rest]);
    var e1 := Eager(e.ledger[(c, to) := Balance(e.ledger, c, to) + Total(tokens)], e.holding[c := Total(rest)]);
    forall d ensures Held(e1, d) == Total(Queue(s1.origins, d)) {
      assert Held(e, d) == Total(Queue(s.origins, d));
    }
    forall d, a ensures Balance(paid, d, a) == Balance(e1.ledger, d, a) + Pending(Queue(s1.origins, d), a) {
      assert Balance(s.ledger, d, a) == Balance(e.ledger, d, a) + Pending(Queue(s.origins, d), a);
    }
  }

  /** The queue holds a batch of exactly this amount: both designs pay it. */
  lemma DepositPays(s: Deferred, e: Eager, c: Address, to: Address, amount: nat)
    requires Related(s, e) && DrainOf(Queue(s.origins, c), amount).Drained?
    ensures var op := DepositTo(c, to, amount);
            && DeferredStep(s, op).1 && EagerStep(e, op).1
            && Related(DeferredStep(s, op).0, EagerStep(e, op).0)
  {
    var queue := Queue(s.origins, c);
    var tokens := DrainOf(queue, amount).tokens;
    var rest := queue[|tokens|..];
    DrainCharacterised(queue, amount);
    assert queue == tokens + rest;
    TotalConcat(tokens, rest);
    DrainedIsPaid(s, e, c, to, tokens, rest);
    assert Held(e, c) == Total(queue);
    PaymentRelates(s, e, c, to, tokens, rest, TransferAll(s.ledger, c, tokens, to).value);
  }

  lemma DepositStep(s: Deferred, e: Eager, c: Address, to: Address, amount: nat)
    requires Related(s, e)
    ensures var op := DepositTo(c, to, amount);
            && (DeferredStep(s, op).1 <==> Covered(s, op))
            && (Covered(s, op) ==> EagerStep(e, op).1 && Related(DeferredStep(s, op).0, EagerStep(e, op).0))
            && (!Covered(s, op) ==> DeferredStep(s, op).0 == s)
            && (EagerStep(e, op).1 <==> amount <= Total(Queue(s.origins, c)))
  {
    DrainSucceedsExactly(Queue(s.origins, c), amount);
    if DrainOf(Queue(s.origins, c), amount).Drained? {
      DepositPays(s, e, c, to, amount);
    }
    assert Held(e, c) == Total(Queue(s.origins, c));
  }

  lemma WithdrawStep(s: Deferred, e: Eager, c: Address, who: Address, amount: nat)
    requires Related(s, e)
    ensures var op := Withdraw(c, who, amount);
            && DeferredStep(s, op).1
            && (EagerStep(e, op).1 <==> Covered(s, op))
            && (Covered(s, op) ==> Related(DeferredStep(s, op).0, EagerStep(e, op).0))
  {
    var queue := Queue(s.origins, c);
    TotalConcat(queue, [Entry(who, amount)]);
    forall a ensures Pending(queue + [Entry(who, amount)], a) == Pending(queue, a) + if a == who then amount else 0 {
      PendingConcat(queue, [Entry(who, amount)], a);
    }
    assert Balance(s.ledger, c, who) == Balance(e.ledger, c, who) + Pending(queue, who);
    if Covered(s, Withdraw(c, who, amount)) {
      var s1, e1 := DeferredStep(s, Withdraw(c, who, amount)).0, EagerStep(e, Withdraw(c, who, amount)).0;
      forall d ensures Held(e1, d) == Total(Queue(s1.origins, d)) {
        assert Held(e, d) == Total(Queue(s.origins, d));
        assert Total([Entry(who, amount)]) == amount + Total([Entry(who, amount)][1..]);
      }
    }
  }

  lemma InternalStep(s: Deferred, e: Eager, c: Address, from: Address, to: Address, amount: nat)
    requires Related(s, e)
    ensures var op := InternalTransfer(c, from, to, amount);
            && (EagerStep(e, op).1 <==> Covered(s, op))
            && (Covered(s, op) ==> DeferredStep(s, op).1 && Related(DeferredStep(s, op).0, EagerStep(e, op).0))
  {
    assert Balance(s.ledger, c, from) == Balance(e.ledger, c, from) + Pending(Queue(s.origins, c), from);
    if amount <= Balance(e.ledger, c, from) {
      TransferMoves(s.ledger, c, from, to, amount);
      TransferMoves(e.ledger, c, from, to, amount);
    }
  }

  /** The condition, again on the deferred state alone, under which the two designs answer alike: they both
      carry the step out, or both refuse it. */
  ghost predicate Agree(s: Deferred, op: Op) {
    match op
    case Withdraw(c, who, amount) => Covered(s, op)
    case DepositTo(c, to, amount) => Covered(s, op) || Total(Queue(s.origins, c)) < amount
    case InternalTransfer(c, from, to, amount) => Covered(s, op) || Balance(s.ledger, c, from) < amount
  }

  /** The designs answer alike exactly when they agree on the step, both succeed exactly when it is covered,
      and an agreed step, refused or not, keeps them related. */
  lemma StepSimulates(s: Deferred, e: Eager, op: Op)
    requires Related(s, e)
    ensures DeferredStep(s, op).1 == EagerStep(e, op).1 <==> Agree(s, op)
    ensures DeferredStep(s, op).1 && EagerStep(e, op).1 <==> Covered(s, op)
    ensures Agree(s, op) ==> Related(DeferredStep(s, op).0, EagerStep(e, op).0)
  {
    match op
    case Withdraw(c, who, amount) => WithdrawStep(s, e, c, who, amount);
    case DepositTo(c, to, amount) => DepositStep(s, e, c, to, amount);
    case InternalTransfer(c, from, to, amount) => InternalStep(s, e, c, from, to, amount);
  }

  // ---------- Whole runs ----------

  /** The state a run ends in, and the outcome of every step. */
  function DeferredRun(s: Deferred, ops: seq<Op>): (Deferred, seq<bool>)
    decreases |ops|
  {
    if ops == [] then (s, [])
    else
      var (next, ok) := DeferredStep(s, ops[0]);
      var (last, rest) := DeferredRun(next, ops[1..]);
      (last, [ok] + rest)
  }

  function EagerRun(e: Eager, ops: seq<Op>): (Eager, seq<bool>)
    decreases |ops|
  {
    if ops == [] then (e, [])
    else
      var (next, ok) := EagerStep(e, ops[0]);
      var (last, rest) := EagerRun(next, ops[1..]);
      (last, [ok] + rest)
  }

  ghost predicate AgreeRun(s: Deferred, ops: seq<Op>)
    decreases |ops|
  {
    ops == [] || (Agree(s, ops[0]) && AgreeRun(DeferredStep(s, ops[0]).0, ops[1..]))
  }

  /** Over every run, refused steps included: the two designs give the same answers, step by step, exactly
      when they agree on every step, and then they end related. */
  lemma {:induction false} RunSimulates(s: Deferred, e: Eager, ops: seq<Op>)
    requires Related(s, e)
    ensures DeferredRun(s, ops).1 == EagerRun(e, ops).1 <==> AgreeRun(s, ops)
    ensures AgreeRun(s, ops) ==> Related(DeferredRun(s, ops).0, EagerRun(e, ops).0)
    decreases |ops|
  {
    if ops != [] {
      StepSimulates(s, e, ops[0]);
      var x, y := DeferredRun(s, ops).1, EagerRun(e, ops).1;
      assert x[0] == DeferredStep(s, ops[0]).1 && y[0] == EagerStep(e, ops[0]).1;
      if Agree(s, ops[0]) {
        RunSimulates(DeferredStep(s, ops[0]).0, EagerStep(e, ops[0]).0, ops[1..]);
        assert x[1..] == DeferredRun(DeferredStep(s, ops[0]).0, ops[1..]).1;
        assert y[1..] == EagerRun(EagerStep(e, ops[0]).0, ops[1..]).1;
      }
    }
  }

  /** A message starts with an empty holding (`XcmExecutorWrapper::execute`). Its answers are those of the
      eager design exactly when the designs agree on every step; then, for every contract with nothing
      pending at the end, the real ledger is the one the eager design would have reached. */
  lemma MessageRefinesEager(ledger: Ledger, ops: seq<Op>)
    ensures var (s, x) := DeferredRun(Deferred(ledger, map[]), ops);
            var (e, y) := EagerRun(Eager(ledger, map[]), ops);
            && (x == y <==> AgreeRun(Deferred(ledger, map[]), ops))
            && (x == y ==> Related(s, e))
            && (x == y ==> forall c :: Queue(s.origins, c) == [] ==>
                  Held(e, c) == 0 && forall a :: Balance(s.ledger, c, a) == Balance(e.ledger, c, a))
  {
    RunSimulates(Deferred(ledger, map[]), Eager(ledger, map[]), ops);
  }

  // ---------- What deferring loses ----------

  lemma RunOfTwo(s: Deferred, a: Op, b: Op)
    ensures var (s1, x) := DeferredStep(s, a); var (s2, y) := DeferredStep(s1, b);
            DeferredRun(s, [a, b]) == (s2, [x, y])
  {
    var (s1, x) := DeferredStep(s, a);
    var (s2, y) := DeferredStep(s1, b);
    assert [a, b][1..] == [b] && [b][1..] == [];
    assert DeferredRun(s2, []) == (s2, []);
    assert [y] + [] == [y];
    assert DeferredRun(s1, [b]) == (s2, [y]);
    assert [x] + [y] == [x, y];
  }

  /** Between recording and paying, the holder can still spend the recorded tokens: the deferred
      transfer succeeds where the eager one fails, and the later deposit fails and empties the queue. */
  lemma RecordedTokensCanBeSpent()
    ensures var start := Deferred(map[(0, 1) := 5], map[]);
            var spent := DeferredRun(start, [Withdraw(0, 1, 5), InternalTransfer(0, 1, 2, 5)]);
            var late := DeferredStep(spent.0, DepositTo(0, 3, 5));
            && spent.1 == [true, true] && !late.1
            && late.0.ledger == spent.0.ledger
            && Queue(spent.0.origins, 0) == [Entry(1, 5)] && Queue(late.0.origins, 0) == []
  {
    var start := Deferred(map[(0, 1) := 5], map[]);
    var s1 := DeferredStep(start, Withdraw(0, 1, 5)).0;
    var s2 := DeferredStep(s1, InternalTransfer(0, 1, 2, 5)).0;
    RunOfTwo(start, Withdraw(0, 1, 5), InternalTransfer(0, 1, 2, 5));
    assert Queue(s2.origins, 0) == [Entry(1, 5)];
    assert Balance(s2.ledger, 0, 1) == 0;
    assert DrainOf([Entry(1, 5)], 5) == Drained([Entry(1, 5)]);
  }

  /** In any state, related or not: exactly when a deposit succeeds, and what a failing step leaves. */
  lemma DepositExactly(s: Deferred, c: Address, to: Address, amount: nat)
    ensures var (next, ok) := DeferredStep(s, DepositTo(c, to, amount));
            var r := DrainOf(Queue(s.origins, c), amount);
            && (r.Drained? <==> HasMatch(Queue(s.origins, c), amount))
            && (ok <==> r.Drained? && Payable(s.ledger, c, r.tokens, to))
            && (!ok ==> next.ledger == s.ledger)
            && (!ok && !HasMatch(Queue(s.origins, c), amount) ==> next == s)
  {
    DrainSucceedsExactly(Queue(s.origins, c), amount);
    var r := DrainOf(Queue(s.origins, c), amount);
    if r.Drained? {
      TransferAllExactly(s.ledger, c, r.tokens, to);
    }
  }

  // ---------- The queue is a FIFO over every run, successful or not ----------

  function DrainedBy(s: Deferred, op: Op, c: Address): seq<Entry> {
    if op.DepositTo? && op.contract == c && DrainOf(Queue(s.origins, c), op.amount).Drained?
    then DrainOf(Queue(s.origins, c), op.amount).tokens else []
  }

  function DrainedAlong(s: Deferred, ops: seq<Op>, c: Address): seq<Entry>
    decreases |ops|
  {
    if ops == [] then []
    else DrainedBy(s, ops[0], c) + DrainedAlong(DeferredStep(s, ops[0]).0, ops[1..], c)
  }

  function Recorded(ops: seq<Op>, c: Address): seq<Entry> {
    if ops == [] then []
    else (if ops[0].Withdraw? && ops[0].contract == c then [Entry(ops[0].who, ops[0].amount)] else [])
         + Recorded(ops[1..], c)
  }

  lemma StepIsFifo(s: Deferred, op: Op, c: Address)
    ensures Queue(s.origins, c) + Recorded([op], c) == DrainedBy(s, op, c) + Queue(DeferredStep(s, op).0.origins, c)
  {
    assert Recorded([op][1..], c) == [];
    if op.DepositTo? {
      DrainCharacterised(Queue(s.origins, op.contract), op.amount);
    }
  }

  lemma Splice<T>(q: seq<T>, in0: seq<T>, in1: seq<T>, out0: seq<T>, mid: seq<T>, out1: seq<T>, last: seq<T>)
    requires q + in0 == out0 + mid && mid + in1 == out1 + last
    ensures q + (in0 + in1) == (out0 + out1) + last
  {
    assert q + (in0 + in1) == (q + in0) + in1;
    assert (out0 + mid) + in1 == out0 + (mid + in1);
    assert out0 + (out1 + last) == (out0 + out1) + last;
  }

  lemma {:induction false} RunIsFifo(s: Deferred, ops: seq<Op>, c: Address)
    ensures Queue(s.origins, c) + Recorded(ops, c)
         == DrainedAlong(s, ops, c) + Queue(DeferredRun(s, ops).0.origins, c)
    decreases |ops|
  {
    if ops != [] {
      var next := DeferredStep(s, ops[0]).0;
      StepIsFifo(s, ops[0], c);
      RunIsFifo(next, ops[1..], c);
      assert Recorded([ops[0]][1..], c) == [];
      Splice(Queue(s.origins, c), Recorded([ops[0]], c), Recorded(ops[1..], c),
             DrainedBy(s, ops[0], c), Queue(next.origins, c),
             DrainedAlong(next, ops[1..], c), Queue(DeferredRun(next, ops[1..]).0.origins, c));
    }
  }

  /** Deposits drain no more of an account's entries than it recorded. */
  lemma DrainsAreRecorded(ledger: Ledger, ops: seq<Op>, c: Address, account: Address)
    ensures Pending(DrainedAlong(Deferred(ledger, map[]), ops, c), account) <= Pending(Recorded(ops, c), account)
  {
    var s := Deferred(ledger, map[]);
    RunIsFifo(s, ops, c);
    assert Queue(s.origins, c) + Recorded(ops, c) == Recorded(ops, c);
    PendingConcat(DrainedAlong(s, ops, c), Queue(DeferredRun(s, ops).0.origins, c), account);
  }

  predicate Spends(op: Op, c: Address, account: Address) {
    op.InternalTransfer? && op.contract == c && op.from == account
  }

  /** Other than by a transfer of its own, an account loses no more than the entries drained. */
  lemma StepDebits(s: Deferred, op: Op, c: Address, account: Address)
    requires !Spends(op, c, account)
    ensures Balance(DeferredStep(s, op).0.ledger, c, account) + Pending(DrainedBy(s, op, c), account)
         >= Balance(s.ledger, c, account)
  {
    match op
    case Withdraw(_, _, _) =>
    case DepositTo(d, to, amount) =>
      var r := DrainOf(Queue(s.origins, d), amount);
      if r.Drained? { TransferAllExactly(s.ledger, d, r.tokens, to); }
    case InternalTransfer(d, from, to, amount) =>
      if amount <= Balance(s.ledger, d, from) { TransferMoves(s.ledger, d, from, to, amount); }
  }

  lemma {:induction false} RunDebits(s: Deferred, ops: seq<Op>, c: Address, account: Address)
    requires forall i :: 0 <= i < |ops| ==> !Spends(ops[i], c, account)
    ensures Balance(DeferredRun(s, ops).0.ledger, c, account) + Pending(DrainedAlong(s, ops, c), account)
         >= Balance(s.ledger, c, account)
    decreases |ops|
  {
    if ops != [] {
      var next := DeferredStep(s, ops[0]).0;
      StepDebits(s, ops[0], c, account);
      RunDebits(next, ops[1..], c, account);
      PendingConcat(DrainedBy(s, ops[0], c), DrainedAlong(next, ops[1..], c), account);
    }
  }

  /** However a message goes, an account that makes no transfer of its own keeps at least its balance less
      what it recorded. */
  lemma DebitsAreRecorded(ledger: Ledger, ops: seq<Op>, c: Address, account: Address)
    requires forall i :: 0 <= i < |ops| ==> !Spends(ops[i], c, account)
    ensures Balance(DeferredRun(Deferred(ledger, map[]), ops).0.ledger, c, account) + Pending(Recorded(ops, c), account)
         >= Balance(ledger, c, account)
  {
    DrainsAreRecorded(ledger, ops, c, account);
    RunDebits(Deferred(ledger, map[]), ops, c, account);
  }
}
