/** The worker's earnings: the total of the payments, the fixed pending amount, what is left
    to withdraw, the guarded withdrawal and the average per task. */
module Payment {
  import opened Common
  import opened Records
  import MockData

  /** The mock amount still pending. */
  const PendingAmount: int := 1200

  /** The payments' amounts added up, left to right from 0. */
  function TotalEarned(ps: seq<Payment>): (total: int)
    ensures ps == [] ==> total == 0
    ensures (forall i :: 0 <= i < |ps| ==> ps[i].amount >= 0) ==> total >= 0
  {
    if ps == [] then 0 else TotalEarned(ps[..|ps| - 1]) + ps[|ps| - 1].amount
  }

  /** The total of two lists of payments is the sum of their totals. */
  lemma {:induction false} TotalConcat(a: seq<Payment>, b: seq<Payment>)
    ensures TotalEarned(a + b) == TotalEarned(a) + TotalEarned(b)
    decreases |b|
  {
    if b == [] {
      assert a + b == a;
    } else {
      var b' := b[..|b| - 1];
      assert (a + b)[..|a + b| - 1] == a + b';
      assert (a + b)[|a + b| - 1] == b[|b| - 1];
      TotalConcat(a, b');
    }
  }

  /** Swapping two blocks of payments keeps the total. */
  lemma {:induction false} TotalSwap(a: seq<Payment>, b: seq<Payment>)
    ensures TotalEarned(a + b) == TotalEarned(b + a)
  {
    TotalConcat(a, b);
    TotalConcat(b, a);
  }

  /** One payment totals its amount; with `TotalConcat` this makes the total the sum. */
  lemma TotalSingle(p: Payment)
    ensures TotalEarned([p]) == p.amount
  {
  }

  /** The order of the payments does not change the total: any permutation of the list
      has the same total. */
  lemma {:induction false} TotalPermutation(a: seq<Payment>, b: seq<Payment>)
    requires multiset(a) == multiset(b)
    ensures TotalEarned(a) == TotalEarned(b)
    decreases |a|
  {
    if a == [] {
      assert |b| == |multiset(b)| == 0;
    } else {
      var a', x := a[..|a| - 1], a[|a| - 1];
      assert a == a' + [x];
      assert x in multiset(b);
      var j :| 0 <= j < |b| && b[j] == x;
      var u, w := b[..j], b[j + 1..];
      assert b == u + [x] + w;
      RemoveOne(a', x, u, w);
      TotalPermutation(a', u + w);
      TotalAround(u, x, w);
    }
  }

  /** Taking the same element out of two equal multisets leaves equal multisets. */
  lemma RemoveOne<T>(a: seq<T>, x: T, u: seq<T>, w: seq<T>)
    requires multiset(a + [x]) == multiset(u + [x] + w)
    ensures multiset(a) == multiset(u + w)
  {
    calc {
      multiset(a);
      multiset(a + [x]) - multiset{x};
      multiset(u + [x] + w) - multiset{x};
      { assert multiset(u + [x] + w) == multiset(u + w) + multiset{x}; }
      multiset(u + w);
    }
  }

  /** A payment in the middle of a list adds its amount to the total of the rest. */
  lemma TotalAround(u: seq<Payment>, x: Payment, w: seq<Payment>)
    ensures TotalEarned(u + [x] + w) == TotalEarned(u + w) + x.amount
  {
    TotalConcat(u, [x]);
    TotalConcat(u + [x], w);
    TotalConcat(u, w);
    TotalSingle(x);
  }

  /** What can be withdrawn: the total less the pending amount; it may be negative. */
  function AvailableAmount(ps: seq<Payment>): (available: int)
    ensures available + PendingAmount == TotalEarned(ps)
  {
    TotalEarned(ps) - PendingAmount
  }

  /** The withdraw button is disabled while a withdrawal runs or when nothing is available. */
  function WithdrawDisabled(isWithdrawing: bool, ps: seq<Payment>): (disabled: bool)
    ensures !disabled <==> !isWithdrawing && TotalEarned(ps) > PendingAmount
  {
    isWithdrawing || AvailableAmount(ps) <= 0
  }

  /** The withdraw button's text. */
  function WithdrawLabel(isWithdrawing: bool): (caption: string)
    ensures caption == "Processing..." <==> isWithdrawing
    ensures caption == "Withdraw Funds" <==> !isWithdrawing
  {
    if isWithdrawing then "Processing..." else "Withdraw Funds"
  }

  /** `Math.round(total / n) || 0`: the mean rounded half up, and 0 for no payments (the
      mean is then 0 / 0, not a number). */
  function AveragePerTask(ps: seq<Payment>): (avg: int)
    ensures ps == [] ==> avg == 0
    ensures ps != [] ==>
              var n, total := |ps|, TotalEarned(ps);
              2 * n * avg - n <= 2 * total < 2 * n * avg + n
  {
    if ps == [] then 0 else RoundedQuotient(TotalEarned(ps), |ps|)
  }

  /** `x / n` rounded to the nearest integer, halves upward. */
  function RoundedQuotient(x: int, n: int): (q: int)
    requires n > 0
    ensures 2 * n * q - n <= 2 * x < 2 * n * q + n
  {
    var q := (2 * x + n) / (2 * n);
    var rem := (2 * x + n) % (2 * n);
    assert 2 * x + n == 2 * n * q + rem && 0 <= rem < 2 * n;
    q
  }

  /** With the shipped data: 600 earned, so -600 available and the button disabled; the
      average is 600. */
  lemma ShippedEarnings()
    ensures TotalEarned(MockData.Payments) == 600
    ensures AvailableAmount(MockData.Payments) == -600
    ensures WithdrawDisabled(false, MockData.Payments)
    ensures AveragePerTask(MockData.Payments) == 600
  {
    assert MockData.Payments[..0] == [];
  }

  /** The outcome of choosing a withdrawal method. */
  datatype WithdrawOutcome = NoFunds | Started

  /** The screen's state, over the payments it lists. */
  class PaymentScreen {
    const payments: seq<Payment>
    var isWithdrawing: bool
    var withdrawalMethod: string

    constructor (ps: seq<Payment>)
      ensures payments == ps && !isWithdrawing
    {
      payments := ps;
      isWithdrawing := false;
      withdrawalMethod := "";
    }

    /** `processWithdrawal(method)`: refused, with the flag unchanged, when nothing is
        available; otherwise the withdrawal starts. */
    method ProcessWithdrawal(m: string) returns (outcome: WithdrawOutcome)
      modifies this
      ensures outcome == NoFunds <==> AvailableAmount(payments) <= 0
      ensures outcome == NoFunds ==> isWithdrawing == old(isWithdrawing) && withdrawalMethod == old(withdrawalMethod)
      ensures outcome == Started ==> isWithdrawing && withdrawalMethod == m
    {
      if AvailableAmount(payments) <= 0 {
        return NoFunds;
      }
      isWithdrawing := true;
      withdrawalMethod := m;
      outcome := Started;
    }

    /** The withdrawal timer fires: the flag goes off and the alert reports the available
        amount sent to the chosen method's account. */
    method CompleteWithdrawal() returns (amount: int, account: string)
      modifies this
      ensures !isWithdrawing && withdrawalMethod == old(withdrawalMethod)
      ensures amount == AvailableAmount(payments) && account == withdrawalMethod
    {
      isWithdrawing := false;
      amount, account := AvailableAmount(payments), withdrawalMethod;
    }
  }
}
