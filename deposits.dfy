/** The deposit aggregator: the first loop of `analyze_position`. It sums the
    `change` of every investor deposit in the cash-movement ledger and keeps the
    earliest date, starting from the date of the ledger's first entry whatever
    that entry is. Both descriptions "flatex Deposit" and "Ingreso" count as a
    deposit. */
module Deposits {
  import opened Records

  predicate IsDeposit(m: CashMovement) {
    m.movementType == "CASH_TRANSACTION" &&
    (m.description == "flatex Deposit" || m.description == "Ingreso")
  }

  /** What the loop yields: `total_payed_to_degiro` and `first_transaction`. */
  datatype Funding = Funding(deposited: real, firstDate: int)

  /** The running deposit total, entry by entry in ledger order. */
  function DepositTotal(ms: seq<CashMovement>): real {
    if ms == [] then 0.0
    else DepositTotal(ms[..|ms| - 1]) + (if IsDeposit(ms[|ms| - 1]) then ms[|ms| - 1].change else 0.0)
  }

  /** The running earliest date, entry by entry, starting from `start`. */
  function EarliestDeposit(ms: seq<CashMovement>, start: int): int {
    if ms == [] then start
    else
      var d := EarliestDeposit(ms[..|ms| - 1], start);
      var m := ms[|ms| - 1];
      if IsDeposit(m) && m.date < d then m.date else d
  }

  /** The whole stage: reading `cashMovements[0]` fails on an empty ledger. */
  function Ledger(ms: seq<CashMovement>): Result<Funding> {
    if ms == [] then Fail(EmptyLedger)
    else Ok(Funding(DepositTotal(ms), EarliestDeposit(ms, ms[0].date)))
  }

  method SumDeposits(ms: seq<CashMovement>) returns (r: Result<Funding>)
    ensures r == Ledger(ms)
  {
    if |ms| == 0 {
      return Fail(EmptyLedger);
    }
    var total := 0.0;
    var first := ms[0].date;
    for i := 0 to |ms|
      invariant total == DepositTotal(ms[..i])
      invariant first == EarliestDeposit(ms[..i], ms[0].date)
    {
      var m := ms[i];
      assert ms[..i + 1][..i] == ms[..i];
      if IsDeposit(m) {
        total := total + m.change;
        if m.date < first {
          first := m.date;
        }
      }
    }
    assert ms[..|ms|] == ms;
    r := Ok(Funding(total, first));
  }

  // ----- An independent reading: filter the deposits, then add them up -----

  /** The deposits of the ledger, in ledger order. */
  function DepositEntries(ms: seq<CashMovement>): (ds: seq<CashMovement>)
    ensures |ds| <= |ms|
    ensures forall m :: m in ds <==> m in ms && IsDeposit(m)
    ensures forall m :: multiset(ds)[m] == if IsDeposit(m) then multiset(ms)[m] else 0
  {
    if ms == [] then []
    else
      assert ms == [ms[0]] + ms[1..];
      if IsDeposit(ms[0]) then [ms[0]] + DepositEntries(ms[1..])
      else DepositEntries(ms[1..])
  }

  function SumChanges(ms: seq<CashMovement>): real {
    if ms == [] then 0.0 else ms[0].change + SumChanges(ms[1..])
  }

  lemma {:induction false} DepositTotalAppend(a: seq<CashMovement>, b: seq<CashMovement>)
    ensures DepositTotal(a + b) == DepositTotal(a) + DepositTotal(b)
  {
    if b != [] {
      var b' := b[..|b| - 1];
      assert (a + b)[..|a + b| - 1] == a + b';
      DepositTotalAppend(a, b');
    } else {
      assert a + b == a;
    }
  }

  /** The total is the sum of `change` over exactly the deposits. */
  lemma {:induction false} DepositTotalIsFilteredSum(ms: seq<CashMovement>)
    ensures DepositTotal(ms) == SumChanges(DepositEntries(ms))
  {
    if ms != [] {
      DepositTotalIsFilteredSum(ms[1..]);
      DepositTotalAppend([ms[0]], ms[1..]);
      assert [ms[0]] + ms[1..] == ms;
      assert [ms[0]][..0] == [];
    }
  }

  /** Movements other than deposits contribute nothing to the total. */
  lemma {:induction false} NonDepositsAddNothing(ms: seq<CashMovement>, others: seq<CashMovement>)
    requires forall i :: 0 <= i < |others| ==> !IsDeposit(others[i])
    ensures DepositTotal(ms + others) == DepositTotal(ms)
  {
    DepositTotalAppend(ms, others);
    NoDepositsTotalZero(others);
  }

  lemma {:induction false} NoDepositsTotalZero(ms: seq<CashMovement>)
    requires forall i :: 0 <= i < |ms| ==> !IsDeposit(ms[i])
    ensures DepositTotal(ms) == 0.0
  {
    if ms != [] {
      NoDepositsTotalZero(ms[..|ms| - 1]);
    }
  }

  /** The total does not depend on the order in which the ledger lists its entries. */
  lemma {:induction false} DepositTotalReorder(a: seq<CashMovement>, b: seq<CashMovement>)
    requires multiset(a) == multiset(b)
    ensures DepositTotal(a) == DepositTotal(b)
    decreases |a|
  {
    if a == [] {
      assert |b| == |multiset(b)| == 0;
    } else {
      var n := |a| - 1;
      var x := a[n];
      assert a == a[..n] + [x];
      assert x in multiset(b);
      var j :| 0 <= j < |b| && b[j] == x;
      var b' := b[..j] + b[j + 1..];
      assert b == b[..j] + [x] + b[j + 1..];
      assert multiset(a) == multiset(a[..n]) + multiset{x};
      assert multiset(b) == multiset(b[..j]) + multiset{x} + multiset(b[j + 1..]);
      assert multiset(b') == multiset(b[..j]) + multiset(b[j + 1..]);
      assert multiset(a[..n]) == multiset(a) - multiset{x};
      assert multiset(b') == multiset(b) - multiset{x};
      DepositTotalReorder(a[..n], b');
      DepositTotalAppend(b[..j] + [x], b[j + 1..]);
      DepositTotalAppend(b[..j], [x]);
      DepositTotalAppend(b[..j], b[j + 1..]);
      assert [x][..0] == [];
    }
  }

  /** The earliest date is at most the start and every deposit's date, and it is
      one of them. */
  lemma {:induction false} EarliestDepositIsMinimum(ms: seq<CashMovement>, start: int)
    ensures EarliestDeposit(ms, start) <= start
    ensures forall i :: 0 <= i < |ms| && IsDeposit(ms[i]) ==> EarliestDeposit(ms, start) <= ms[i].date
    ensures EarliestDeposit(ms, start) == start ||
            exists i :: 0 <= i < |ms| && IsDeposit(ms[i]) && ms[i].date == EarliestDeposit(ms, start)
  {
    if ms != [] {
      var p := ms[..|ms| - 1];
      EarliestDepositIsMinimum(p, start);
      assert forall i :: 0 <= i < |p| ==> p[i] == ms[i];
    }
  }

  /** The stage's start date: the earliest of the first entry's date and every deposit date. */
  lemma LedgerFirstDate(ms: seq<CashMovement>)
    requires ms != []
    ensures Ledger(ms).Ok?
    ensures Ledger(ms).value.firstDate <= ms[0].date
    ensures forall i :: 0 <= i < |ms| && IsDeposit(ms[i]) ==> Ledger(ms).value.firstDate <= ms[i].date
    ensures Ledger(ms).value.firstDate == ms[0].date ||
            exists i :: 0 <= i < |ms| && IsDeposit(ms[i]) && ms[i].date == Ledger(ms).value.firstDate
  {
    EarliestDepositIsMinimum(ms, ms[0].date);
  }
}
