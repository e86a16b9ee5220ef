/** The cost-basis aggregator: the second loop of `analyze_position`. Every
    transaction must be a buy ("B"); any other direction aborts the whole
    analysis. For each product it accumulates what was paid,
    `-totalPlusFeeInBaseCurrency`, in a map from product id to cost, and keeps a
    running grand total `total_buyed`. */
module CostBasis {
  import opened Records

  /** What the loop yields: `buy_transactions` and `total_buyed`. */
  datatype Purchases = Purchases(basis: map<int, real>, totalBought: real)

  /** What one purchase cost, fees included: the settled amount with its sign flipped. */
  function Paid(t: Transaction): real {
    -t.totalPlusFeeInBaseCurrency
  }

  predicate AllBuys(ts: seq<Transaction>) {
    forall i :: 0 <= i < |ts| ==> ts[i].buysell == "B"
  }

  /** The map after one more purchase: a new key starts at the amount paid,
      a known key adds it. */
  function Record(basis: map<int, real>, t: Transaction): map<int, real> {
    if t.productId in basis then basis[t.productId := basis[t.productId] + Paid(t)]
    else basis[t.productId := Paid(t)]
  }

  /** `buy_transactions`, built in transaction order. */
  function Basis(ts: seq<Transaction>): map<int, real> {
    if ts == [] then map[] else Record(Basis(ts[..|ts| - 1]), ts[|ts| - 1])
  }

  /** `total_buyed`, built in transaction order. */
  function TotalBought(ts: seq<Transaction>): real {
    if ts == [] then 0.0 else TotalBought(ts[..|ts| - 1]) + Paid(ts[|ts| - 1])
  }

  /** The whole stage: a single non-buy anywhere aborts it. */
  function Buys(ts: seq<Transaction>): Result<Purchases> {
    if AllBuys(ts) then Ok(Purchases(Basis(ts), TotalBought(ts))) else Fail(SellNotImplemented)
  }

  method AggregateBuys(ts: seq<Transaction>) returns (r: Result<Purchases>)
    ensures r == Buys(ts)
  {
    var basis: map<int, real> := map[];
    var total := 0.0;
    for i := 0 to |ts|
      invariant AllBuys(ts[..i])
      invariant basis == Basis(ts[..i])
      invariant total == TotalBought(ts[..i])
    {
      var t := ts[i];
      if t.buysell != "B" {
        assert !AllBuys(ts);
        return Fail(SellNotImplemented);
      }
      assert ts[..i + 1][..i] == ts[..i];
      total := total + -t.totalPlusFeeInBaseCurrency;
      if t.productId in basis {
        basis := basis[t.productId := basis[t.productId] + -t.totalPlusFeeInBaseCurrency];
      } else {
        basis := basis[t.productId := -t.totalPlusFeeInBaseCurrency];
      }
    }
    assert ts[..|ts|] == ts;
    r := Ok(Purchases(basis, total));
  }

  // ----- Independent readings of the map and the total -----

  /** What was paid in all for product `x`. */
  function CostOf(ts: seq<Transaction>, x: int): real {
    if ts == [] then 0.0
    else CostOf(ts[..|ts| - 1], x) + (if ts[|ts| - 1].productId == x then Paid(ts[|ts| - 1]) else 0.0)
  }

  /** The distinct products bought, in order of first purchase (the order in
      which the map gained its keys). */
  function Ids(ts: seq<Transaction>): (ks: seq<int>)
    ensures forall i, j :: 0 <= i < j < |ks| ==> ks[i] != ks[j]
    ensures forall x :: x in ks <==> x in Basis(ts)
  {
    if ts == [] then []
    else
      var ks := Ids(ts[..|ts| - 1]);
      var x := ts[|ts| - 1].productId;
      if x in ks then ks else ks + [x]
  }

  /** The sum of the values a map holds at the keys `ks` (a key it lacks adds nothing). */
  function SumAt(m: map<int, real>, ks: seq<int>): real {
    if ks == [] then 0.0
    else SumAt(m, ks[..|ks| - 1]) + (if ks[|ks| - 1] in m then m[ks[|ks| - 1]] else 0.0)
  }

  /** The keys are exactly the products that were bought, and each key holds
      what was paid for that product. */
  lemma {:induction false} BasisIsCostPerProduct(ts: seq<Transaction>)
    ensures Basis(ts).Keys == set i | 0 <= i < |ts| :: ts[i].productId
    ensures forall x :: x in Basis(ts) ==> Basis(ts)[x] == CostOf(ts, x)
  {
    if ts != [] {
      var p := ts[..|ts| - 1];
      BasisIsCostPerProduct(p);
      assert forall i :: 0 <= i < |p| ==> p[i] == ts[i];
      var ids := set i | 0 <= i < |ts| :: ts[i].productId;
      var pids := set i | 0 <= i < |p| :: p[i].productId;
      var x := ts[|ts| - 1].productId;
      if x !in Basis(p) {
        forall i | 0 <= i < |p| ensures p[i].productId != x {
          assert p[i].productId in pids;
        }
        CostOfAbsent(p, x);
      }
      assert ids == pids + {x} by {
        forall y | y in ids ensures y in pids + {x} {
          var i :| 0 <= i < |ts| && ts[i].productId == y;
          if i < |p| {
            assert p[i].productId == y;
          }
        }
      }
    }
  }

  /** A product never bought has no entry and cost nothing. */
  lemma NeverBought(ts: seq<Transaction>, x: int)
    requires forall i :: 0 <= i < |ts| ==> ts[i].productId != x
    ensures x !in Basis(ts) && CostOf(ts, x) == 0.0
  {
  }

  lemma {:induction false} CostOfAbsent(ts: seq<Transaction>, x: int)
    requires forall i :: 0 <= i < |ts| ==> ts[i].productId != x
    ensures CostOf(ts, x) == 0.0
  {
    if ts != [] {
      CostOfAbsent(ts[..|ts| - 1], x);
    }
  }

  /** Changing the value at a key that `ks` lists once changes the sum by the difference. */
  lemma {:induction false} SumAtUpdate(m: map<int, real>, ks: seq<int>, k: int, v: real)
    requires forall i, j :: 0 <= i < j < |ks| ==> ks[i] != ks[j]
    requires k in m
    ensures SumAt(m[k := v], ks) == SumAt(m, ks) + (if k in ks then v - m[k] else 0.0)
  {
    if ks != [] {
      var p := ks[..|ks| - 1];
      assert k in ks <==> k in p || k == ks[|ks| - 1];
      SumAtUpdate(m, p, k, v);
    }
  }

  lemma {:induction false} SumAtFresh(m: map<int, real>, ks: seq<int>, k: int, v: real)
    requires k !in ks
    ensures SumAt(m[k := v], ks) == SumAt(m, ks)
  {
    if ks != [] {
      var p := ks[..|ks| - 1];
      SumAtFresh(m, p, k, v);
    }
  }

  /** The grand total is the sum of the map's values. */
  lemma {:induction false} TotalIsSumOfBasis(ts: seq<Transaction>)
    ensures TotalBought(ts) == SumAt(Basis(ts), Ids(ts))
  {
    if ts != [] {
      var p, t := ts[..|ts| - 1], ts[|ts| - 1];
      var m, ks, x := Basis(p), Ids(p), t.productId;
      TotalIsSumOfBasis(p);
      assert Basis(ts) == Record(m, t);
      assert TotalBought(ts) == SumAt(m, ks) + Paid(t);
      if x in m {
        assert Ids(ts) == ks;
        assert Record(m, t) == m[x := m[x] + Paid(t)];
        SumAtUpdate(m, ks, x, m[x] + Paid(t));
        assert SumAt(m[x := m[x] + Paid(t)], ks) == SumAt(m, ks) + Paid(t);
      } else {
        var ks' := ks + [x];
        assert Ids(ts) == ks';
        assert Record(m, t) == m[x := Paid(t)];
        assert ks'[..|ks'| - 1] == ks;
        SumAtFresh(m, ks, x, Paid(t));
        assert SumAt(m[x := Paid(t)], ks') == SumAt(m[x := Paid(t)], ks) + Paid(t);
      }
    }
  }

  /** A non-buy anywhere in the history aborts the stage, whatever else it holds. */
  lemma SellAnywhereAborts(before: seq<Transaction>, t: Transaction, after: seq<Transaction>)
    requires t.buysell != "B"
    ensures Buys(before + [t] + after) == Fail(SellNotImplemented)
  {
    assert (before + [t] + after)[|before|] == t;
  }
}
