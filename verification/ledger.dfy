/** The ledger aggregator of the tenant dashboard.

    A tenant's transactions are folded left to right into a running pair of
    charges and payments, exactly as the memoised reducer of the ledger panel
    does; the displayed totals are then the two sums and their difference.
    Amounts are exact integers (cents) rather than floating-point numbers.
 */
module Ledger {
  import Text

  /** One row of `GET /api/transactions/?tenant_id=...`; the API's `type`
      field is called `kind` here. */
  datatype Transaction = Transaction(
    id: int,
    date: string,
    description: string,
    kind: string,
    amount: int)

  /** What a transaction's type counts as in the totals. */
  datatype Kind = Charge | Payment | Other

  /** The running accumulator of the reducer, `{ charges, payments }`. */
  datatype Acc = Acc(charges: int, payments: int)

  /** The memoised result `{ totalCharges, totalPayments, balance }`. */
  datatype Totals = Totals(totalCharges: int, totalPayments: int, balance: int)

  const Zero := Totals(0, 0, 0)

  function Abs(x: int): (r: nat)
    ensures r == x || r == -x
  {
    if x < 0 then -x else x
  }

  /** The type is lower-cased and compared with `"charge"`, then with
      `"payment"`; anything else is neither. */
  function Classify(kind: string): (k: Kind)
    ensures k == Charge <==> Text.EqualsIgnoreCase(kind, "charge")
    ensures k == Payment <==> Text.EqualsIgnoreCase(kind, "payment")
  {
    var lower := Text.ToLower(kind);
    Text.MatchesLowerWord(kind, "charge");
    Text.MatchesLowerWord(kind, "payment");
    if lower == "charge" then Charge
    else if lower == "payment" then Payment
    else Other
  }

  /** One step of the reducer: a charge adds the magnitude of its amount, a
      payment adds its amount with its sign, any other type is skipped. */
  function Step(acc: Acc, t: Transaction): (r: Acc)
    ensures r == Acc(acc.charges + ChargeOf(t), acc.payments + PaymentOf(t))
  {
    match Classify(t.kind)
    case Charge => acc.(charges := acc.charges + Abs(t.amount))
    case Payment => acc.(payments := acc.payments + t.amount)
    case Other => acc
  }

  // Reference definitions of the two totals, one transaction at a time,
  // independent of the accumulator.

  function ChargeOf(t: Transaction): nat {
    if Classify(t.kind) == Charge then Abs(t.amount) else 0
  }

  function PaymentOf(t: Transaction): int {
    if Classify(t.kind) == Payment then t.amount else 0
  }

  /** Sum of the magnitudes of all charges. */
  function ChargeTotal(txns: seq<Transaction>): nat {
    if |txns| == 0 then 0 else ChargeOf(txns[0]) + ChargeTotal(txns[1..])
  }

  /** Sum of the signed amounts of all payments. */
  function PaymentTotal(txns: seq<Transaction>): int {
    if |txns| == 0 then 0 else PaymentOf(txns[0]) + PaymentTotal(txns[1..])
  }

  /** `transactions.reduce(step, acc)`: a left fold, first transaction first.
      Whatever the starting accumulator, the fold adds exactly the reference
      sums to it. */
  function Reduce(acc: Acc, txns: seq<Transaction>): (r: Acc)
    ensures r.charges == acc.charges + ChargeTotal(txns)
    ensures r.payments == acc.payments + PaymentTotal(txns)
    decreases |txns|
  {
    if |txns| == 0 then acc else Reduce(Step(acc, txns[0]), txns[1..])
  }

  /** The totals shown in the ledger summary. An empty list short-circuits to
      zero before the fold, as the dashboard's reducer does. */
  function Aggregate(txns: seq<Transaction>): (r: Totals)
    ensures r.totalCharges == ChargeTotal(txns)
    ensures r.totalPayments == PaymentTotal(txns)
    ensures r.balance == r.totalPayments - r.totalCharges
    ensures r.totalCharges >= 0
    ensures |txns| == 0 ==> r == Zero
  {
    if |txns| == 0 then Zero
    else
      var acc := Reduce(Acc(0, 0), txns);
      Totals(acc.charges, acc.payments, acc.payments - acc.charges)
  }

  /** The empty-list guard only saves work: folding the empty list from the
      reducer's initial accumulator also yields zero totals. */
  lemma EmptyGuardRedundant()
    ensures Reduce(Acc(0, 0), []) == Acc(0, 0)
    ensures Aggregate([]) == Zero
  {
  }

  lemma {:induction false} ChargeTotalAppend(a: seq<Transaction>, b: seq<Transaction>)
    ensures ChargeTotal(a + b) == ChargeTotal(a) + ChargeTotal(b)
    decreases |a|
  {
    if |a| == 0 {
      assert a + b == b;
    } else {
      assert (a + b)[1..] == a[1..] + b;
      ChargeTotalAppend(a[1..], b);
    }
  }

  lemma {:induction false} PaymentTotalAppend(a: seq<Transaction>, b: seq<Transaction>)
    ensures PaymentTotal(a + b) == PaymentTotal(a) + PaymentTotal(b)
    decreases |a|
  {
    if |a| == 0 {
      assert a + b == b;
    } else {
      assert (a + b)[1..] == a[1..] + b;
      PaymentTotalAppend(a[1..], b);
    }
  }

  /** Totals of a concatenation are the sums of the parts' totals. */
  lemma AggregateAppend(a: seq<Transaction>, b: seq<Transaction>)
    ensures Aggregate(a + b).totalCharges == Aggregate(a).totalCharges + Aggregate(b).totalCharges
    ensures Aggregate(a + b).totalPayments == Aggregate(a).totalPayments + Aggregate(b).totalPayments
    ensures Aggregate(a + b).balance == Aggregate(a).balance + Aggregate(b).balance
  {
    ChargeTotalAppend(a, b);
    PaymentTotalAppend(a, b);
  }

  /** Swapping two blocks of transactions does not change the totals. */
  lemma AggregateOrderIrrelevant(a: seq<Transaction>, b: seq<Transaction>)
    ensures Aggregate(a + b) == Aggregate(b + a)
  {
    AggregateAppend(a, b);
    AggregateAppend(b, a);
  }

  /** What a single transaction contributes: a charge its magnitude to the
      charges, a payment its signed amount to the payments, anything else
      nothing. */
  lemma AggregateSingle(t: Transaction)
    ensures Classify(t.kind) == Charge ==> Aggregate([t]) == Totals(Abs(t.amount), 0, -(Abs(t.amount) as int))
    ensures Classify(t.kind) == Payment ==> Aggregate([t]) == Totals(0, t.amount, t.amount)
    ensures Classify(t.kind) == Other ==> Aggregate([t]) == Zero
  {
    assert [t][1..] == [];
    assert ChargeTotal([t]) == ChargeOf(t);
    assert PaymentTotal([t]) == PaymentOf(t);
  }

  /** The charge total covers the magnitude of every single charge. */
  lemma {:induction false} ChargeTotalCoversEach(txns: seq<Transaction>, i: int)
    requires 0 <= i < |txns|
    ensures ChargeOf(txns[i]) <= ChargeTotal(txns)
    decreases |txns|
  {
    if i > 0 {
      assert txns[1..][i - 1] == txns[i];
      ChargeTotalCoversEach(txns[1..], i - 1);
    }
  }

  /** Removing the transaction at index `j` removes exactly its charge. */
  lemma ChargeRemoveAt(ys: seq<Transaction>, j: int)
    requires 0 <= j < |ys|
    ensures ChargeTotal(ys) == ChargeOf(ys[j]) + ChargeTotal(ys[..j] + ys[j + 1..])
  {
    var a, m, b := ys[..j], ys[j..], ys[j + 1..];
    calc {
      ChargeTotal(ys);
      { assert ys == a + m; }
      ChargeTotal(a + m);
      { ChargeTotalAppend(a, m); }
      ChargeTotal(a) + ChargeTotal(m);
      { assert m[1..] == b; }
      ChargeTotal(a) + ChargeOf(ys[j]) + ChargeTotal(b);
      { ChargeTotalAppend(a, b); }
      ChargeOf(ys[j]) + ChargeTotal(a + b);
    }
  }

  /** Removing the transaction at index `j` removes exactly its payment. */
  lemma PaymentRemoveAt(ys: seq<Transaction>, j: int)
    requires 0 <= j < |ys|
    ensures PaymentTotal(ys) == PaymentOf(ys[j]) + PaymentTotal(ys[..j] + ys[j + 1..])
  {
    var a, m, b := ys[..j], ys[j..], ys[j + 1..];
    calc {
      PaymentTotal(ys);
      { assert ys == a + m; }
      PaymentTotal(a + m);
      { PaymentTotalAppend(a, m); }
      PaymentTotal(a) + PaymentTotal(m);
      { assert m[1..] == b; }
      PaymentTotal(a) + PaymentOf(ys[j]) + PaymentTotal(b);
      { PaymentTotalAppend(a, b); }
      PaymentOf(ys[j]) + PaymentTotal(a + b);
    }
  }

  lemma MultisetRemoveAt(ys: seq<Transaction>, j: int)
    requires 0 <= j < |ys|
    ensures multiset(ys[..j] + ys[j + 1..]) == multiset(ys) - multiset{ys[j]}
  {
    assert ys[..j] + ys[j..] == ys;
    assert ys[j..] == [ys[j]] + ys[j + 1..];
  }

  /** An index at which `x` occurs in `ys`. */
  function IndexOf(ys: seq<Transaction>, x: Transaction): (j: nat)
    requires x in multiset(ys)
    ensures j < |ys| && ys[j] == x
  {
    if ys[0] == x then 0 else IndexOf(ys[1..], x) + 1
  }

  /** Removing the first transaction of `xs` and an equal transaction of
      `ys` keeps the two multisets equal. */
  lemma MultisetRemoveBoth(xs: seq<Transaction>, ys: seq<Transaction>, j: int)
    requires |xs| > 0 && multiset(xs) == multiset(ys)
    requires 0 <= j < |ys| && ys[j] == xs[0]
    ensures multiset(xs[1..]) == multiset(ys[..j] + ys[j + 1..])
  {
    MultisetRemoveAt(ys, j);
    assert xs == [xs[0]] + xs[1..];
  }

  lemma EmptyMultiset(ys: seq<Transaction>)
    requires multiset(ys) == multiset{}
    ensures ys == []
  {
    assert |multiset(ys)| == |ys|;
  }

  lemma {:induction false} ChargePermutation(xs: seq<Transaction>, ys: seq<Transaction>)
    requires multiset(xs) == multiset(ys)
    ensures ChargeTotal(xs) == ChargeTotal(ys)
    decreases |xs|
  {
    if |xs| == 0 {
      EmptyMultiset(ys);
    } else {
      var j := IndexOf(ys, xs[0]);
      MultisetRemoveBoth(xs, ys, j);
      ChargePermutation(xs[1..], ys[..j] + ys[j + 1..]);
      ChargeRemoveAt(ys, j);
    }
  }

  lemma {:induction false} PaymentPermutation(xs: seq<Transaction>, ys: seq<Transaction>)
    requires multiset(xs) == multiset(ys)
    ensures PaymentTotal(xs) == PaymentTotal(ys)
    decreases |xs|
  {
    if |xs| == 0 {
      EmptyMultiset(ys);
    } else {
      var j := IndexOf(ys, xs[0]);
      MultisetRemoveBoth(xs, ys, j);
      PaymentPermutation(xs[1..], ys[..j] + ys[j + 1..]);
      PaymentRemoveAt(ys, j);
    }
  }

  /** Reordering the transactions in any way leaves every total unchanged. */
  lemma AggregatePermutation(xs: seq<Transaction>, ys: seq<Transaction>)
    requires multiset(xs) == multiset(ys)
    ensures Aggregate(xs) == Aggregate(ys)
  {
    ChargePermutation(xs, ys);
    PaymentPermutation(xs, ys);
  }

  /** A transaction whose type is neither word may be inserted anywhere
      without changing any total. */
  lemma UnknownKindIgnored(a: seq<Transaction>, t: Transaction, b: seq<Transaction>)
    requires Classify(t.kind) == Other
    ensures Aggregate(a + [t] + b) == Aggregate(a + b)
  {
    AggregateAppend(a + [t], b);
    AggregateAppend(a, [t]);
    AggregateAppend(a, b);
    AggregateSingle(t);
  }

  /** Two transactions that differ at most in the letter case of their type. */
  predicate SameUpToCase(x: Transaction, y: Transaction) {
    x.(kind := y.kind) == y && Text.EqualsIgnoreCase(x.kind, y.kind)
  }

  /** Classification ignores letter case. */
  lemma ClassifyIgnoresCase(a: string, b: string)
    requires Text.EqualsIgnoreCase(a, b)
    ensures Classify(a) == Classify(b)
  {
  }

  /** Changing the letter case of any transaction types leaves every total
      unchanged. */
  lemma {:induction false} AggregateIgnoresCase(xs: seq<Transaction>, ys: seq<Transaction>)
    requires |xs| == |ys|
    requires forall i :: 0 <= i < |xs| ==> SameUpToCase(xs[i], ys[i])
    ensures Aggregate(xs) == Aggregate(ys)
  {
    TotalsIgnoreCase(xs, ys);
  }

  lemma {:induction false} TotalsIgnoreCase(xs: seq<Transaction>, ys: seq<Transaction>)
    requires |xs| == |ys|
    requires forall i :: 0 <= i < |xs| ==> SameUpToCase(xs[i], ys[i])
    ensures ChargeTotal(xs) == ChargeTotal(ys)
    ensures PaymentTotal(xs) == PaymentTotal(ys)
    decreases |xs|
  {
    if |xs| > 0 {
      ClassifyIgnoresCase(xs[0].kind, ys[0].kind);
      TotalsIgnoreCase(xs[1..], ys[1..]);
    }
  }

  /** "Charge", "CHARGE" and "charge" all classify as a charge. */
  lemma ChargeSpellings()
    ensures Classify("charge") == Charge
    ensures Classify("Charge") == Charge
    ensures Classify("CHARGE") == Charge
  {
    assert Text.EqualsIgnoreCase("charge", "charge");
    assert Text.EqualsIgnoreCase("Charge", "charge");
    assert Text.EqualsIgnoreCase("CHARGE", "charge");
  }

  /** "Payment" classifies as a payment. */
  lemma PaymentSpelling()
    ensures Classify("Payment") == Payment
  {
    assert Text.EqualsIgnoreCase("Payment", "payment");
  }

  /** "refund" is neither a charge nor a payment. */
  lemma RefundIsOther()
    ensures Classify("refund") == Other
  {
    assert Text.LowerChar("refund"[0]) != Text.LowerChar("charge"[0]);
    assert Text.LowerChar("refund"[0]) != Text.LowerChar("payment"[0]);
  }

  /** A charge of -50.00 and a payment of 200.00 give charges 50.00,
      payments 200.00 and balance 150.00. */
  lemma ScenarioChargeAndPayment()
    ensures Aggregate([Transaction(1, "2024-01-01", "Rent", "charge", -5000),
                       Transaction(2, "2024-01-02", "Paid", "payment", 20000)])
         == Totals(5000, 20000, 15000)
  {
  }

  /** Two charges of 30.00 and 20.00 give charges 50.00, no payments and
      balance -50.00. */
  lemma ScenarioTwoCharges()
    ensures Aggregate([Transaction(1, "2024-01-01", "Rent", "charge", 3000),
                       Transaction(2, "2024-01-02", "Fee", "charge", 2000)])
         == Totals(5000, 0, -5000)
  {
  }
}
