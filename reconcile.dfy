/** The position reconciler: the third loop of `analyze_position`. It walks the
    portfolio. A "PRODUCT" position has its id normalised to an integer, its cost
    basis looked up, and its value and gain stored under the product's display
    name; its value is added to `sum_positions`. A "CASH" position overwrites
    `cash`. Any other position changes nothing. The name lookup is a parameter. */
module Reconciliation {
  import opened Records
  import opened ProductIds

  /** One entry of `calculated_portfolio`: "value", "beneficio" and "beneficio_pct". */
  datatype Gain = Gain(value: real, gain: real, gainFraction: real)

  /** What the loop yields: `calculated_portfolio`, `sum_positions` and `cash`. */
  datatype Holdings = Holdings(report: map<string, Gain>, sumPositions: real, cash: real)

  predicate IsProduct(p: Position) {
    p.positionType == "PRODUCT"
  }

  predicate IsCash(p: Position) {
    p.positionType == "CASH"
  }

  /** The gain of a holding worth `value` that cost `cost`. */
  function GainOf(value: real, cost: real): (g: Gain)
    requires cost != 0.0
    ensures g.value == value
    ensures g.gain == value - cost
    ensures g.gain == cost * g.gainFraction
    ensures g.gain > 0.0 <==> value > cost
  {
    Gain(value, value - cost, value / cost - 1.0)
  }

  /** The report entry a product position makes: its display name and its gain,
      or the error that aborts the analysis (an id that is not an integer, a
      product never bought, a zero cost basis). */
  function Line(p: Position, basis: map<int, real>, name: int -> string): (r: Result<(string, Gain)>)
    ensures r.Ok? <==>
              Normalize(p.id).Ok? && Normalize(p.id).value in basis && basis[Normalize(p.id).value] != 0.0
    ensures Normalize(p.id).Fail? ==> r == Fail(Normalize(p.id).error)
    ensures Normalize(p.id).Ok? && Normalize(p.id).value !in basis ==>
              r == Fail(MissingCostBasis(Normalize(p.id).value))
    ensures Normalize(p.id).Ok? && Normalize(p.id).value in basis && basis[Normalize(p.id).value] == 0.0 ==>
              r == Fail(ZeroCostBasis(Normalize(p.id).value))
    ensures r.Ok? ==>
              Normalize(p.id).Ok? && Normalize(p.id).value in basis &&
              r.value.0 == name(Normalize(p.id).value) &&
              r.value.1.value == p.value &&
              basis[Normalize(p.id).value] != 0.0 &&
              r.value.1.gain == p.value - basis[Normalize(p.id).value] &&
              r.value.1.gainFraction * basis[Normalize(p.id).value] == r.value.1.gain &&
              (r.value.1.gain > 0.0 <==> p.value > basis[Normalize(p.id).value])
  {
    match Normalize(p.id)
    case Fail(e) => Fail(e)
    case Ok(n) =>
      if n !in basis then Fail(MissingCostBasis(n))
      else if basis[n] == 0.0 then Fail(ZeroCostBasis(n))
      else Ok((name(n), GainOf(p.value, basis[n])))
  }

  /** One step of the loop. */
  function Visit(h: Holdings, p: Position, basis: map<int, real>, name: int -> string): (r: Result<Holdings>)
    ensures r.Fail? <==> IsProduct(p) && Line(p, basis, name).Fail?
    ensures r.Fail? ==> r.error == Line(p, basis, name).error
    ensures r.Ok? && IsProduct(p) ==>
              r.value == Holdings(h.report[Line(p, basis, name).value.0 := Line(p, basis, name).value.1],
                                  h.sumPositions + p.value, h.cash)
    ensures r.Ok? && !IsProduct(p) ==>
              r.value == Holdings(h.report, h.sumPositions, if IsCash(p) then p.value else h.cash)
  {
    if IsProduct(p) then
      match Line(p, basis, name)
      case Fail(e) => Fail(e)
      case Ok((key, g)) => Ok(h.(report := h.report[key := g], sumPositions := h.sumPositions + p.value))
    else if IsCash(p) then
      Ok(h.(cash := p.value))
    else
      Ok(h)
  }

  /** The loop over the whole portfolio; the first error stops it. */
  function Reconcile(ps: seq<Position>, basis: map<int, real>, name: int -> string): Result<Holdings> {
    if ps == [] then Ok(Holdings(map[], 0.0, 0.0))
    else
      match Reconcile(ps[..|ps| - 1], basis, name)
      case Fail(e) => Fail(e)
      case Ok(h) => Visit(h, ps[|ps| - 1], basis, name)
  }

  method ReconcilePositions(ps: seq<Position>, basis: map<int, real>, name: int -> string)
    returns (r: Result<Holdings>)
    ensures r == Reconcile(ps, basis, name)
  {
    var report: map<string, Gain> := map[];
    var sum := 0.0;
    var cash := 0.0;
    for i := 0 to |ps|
      invariant Reconcile(ps[..i], basis, name) == Ok(Holdings(report, sum, cash))
    {
      var p := ps[i];
      assert ps[..i + 1][..i] == ps[..i];
      if p.positionType == "PRODUCT" {
        var id: int;
        match Normalize(p.id) {
          case Fail(e) =>
            FailureSticks(ps, i + 1, basis, name);
            return Fail(e);
          case Ok(n) =>
            id := n;
        }
        var productName := name(id);
        if id !in basis {
          FailureSticks(ps, i + 1, basis, name);
          return Fail(MissingCostBasis(id));
        }
        if basis[id] == 0.0 {
          FailureSticks(ps, i + 1, basis, name);
          return Fail(ZeroCostBasis(id));
        }
        report := report[productName := GainOf(p.value, basis[id])];
        sum := sum + p.value;
      } else if p.positionType == "CASH" {
        cash := p.value;
      }
    }
    assert ps[..|ps|] == ps;
    r := Ok(Holdings(report, sum, cash));
  }

  /** Once a prefix of the portfolio has failed, the whole walk fails the same way. */
  lemma {:induction false} FailureSticks(ps: seq<Position>, k: nat, basis: map<int, real>, name: int -> string)
    requires k <= |ps|
    requires Reconcile(ps[..k], basis, name).Fail?
    ensures Reconcile(ps, basis, name) == Reconcile(ps[..k], basis, name)
    decreases |ps| - k
  {
    if k == |ps| {
      assert ps[..k] == ps;
    } else {
      var q := ps[..|ps| - 1];
      assert q[..k] == ps[..k];
      FailureSticks(q, k, basis, name);
    }
  }

  // ----- Independent readings of the three results -----

  /** The sum of the values of the PRODUCT positions. */
  function ProductValueSum(ps: seq<Position>): real {
    if ps == [] then 0.0
    else ProductValueSum(ps[..|ps| - 1]) + (if IsProduct(ps[|ps| - 1]) then ps[|ps| - 1].value else 0.0)
  }

  /** The value of the last CASH position, or 0 when there is none. */
  function LastCash(ps: seq<Position>): real {
    if ps == [] then 0.0
    else if IsCash(ps[|ps| - 1]) then ps[|ps| - 1].value
    else LastCash(ps[..|ps| - 1])
  }

  /** No later product position of `ps` is reported under the same name as position `i`. */
  predicate LastOfItsName(ps: seq<Position>, i: int, basis: map<int, real>, name: int -> string)
    requires 0 <= i < |ps| && Line(ps[i], basis, name).Ok?
  {
    forall j :: i < j < |ps| && IsProduct(ps[j]) && Line(ps[j], basis, name).Ok? ==>
      Line(ps[j], basis, name).value.0 != Line(ps[i], basis, name).value.0
  }

  /** The walk fails exactly when some product position cannot be priced, and
      then with the error of the first such position. */
  lemma {:induction false} ReconcileFailure(ps: seq<Position>, basis: map<int, real>, name: int -> string)
    ensures Reconcile(ps, basis, name).Fail? <==>
            exists i :: 0 <= i < |ps| && IsProduct(ps[i]) && Line(ps[i], basis, name).Fail?
    ensures Reconcile(ps, basis, name).Fail? ==>
            exists k :: 0 <= k < |ps| && IsProduct(ps[k]) && Line(ps[k], basis, name).Fail? &&
              Reconcile(ps, basis, name).error == Line(ps[k], basis, name).error &&
              forall j :: 0 <= j < k && IsProduct(ps[j]) ==> Line(ps[j], basis, name).Ok?
  {
    if ps != [] {
      var q := ps[..|ps| - 1];
      ReconcileFailure(q, basis, name);
      assert forall i :: 0 <= i < |q| ==> q[i] == ps[i];
    }
  }

  /** On success: every product was priced, `sum_positions` is the sum of the
      product values, and `cash` is the value of the last CASH position. */
  lemma {:induction false} ReconcileTotals(ps: seq<Position>, basis: map<int, real>, name: int -> string)
    requires Reconcile(ps, basis, name).Ok?
    ensures forall i :: 0 <= i < |ps| && IsProduct(ps[i]) ==> Line(ps[i], basis, name).Ok?
    ensures Reconcile(ps, basis, name).value.sumPositions == ProductValueSum(ps)
    ensures Reconcile(ps, basis, name).value.cash == LastCash(ps)
  {
    if ps != [] {
      var q := ps[..|ps| - 1];
      ReconcileTotals(q, basis, name);
      assert forall i :: 0 <= i < |q| ==> q[i] == ps[i];
    }
  }

  /** On success the report has a key exactly for each product name. */
  lemma {:induction false} ReportKeys(ps: seq<Position>, basis: map<int, real>, name: int -> string)
    requires Reconcile(ps, basis, name).Ok?
    ensures forall s :: s in Reconcile(ps, basis, name).value.report <==>
              exists i :: 0 <= i < |ps| && IsProduct(ps[i]) && Line(ps[i], basis, name).Ok? &&
                Line(ps[i], basis, name).value.0 == s
  {
    if ps != [] {
      var q, p := ps[..|ps| - 1], ps[|ps| - 1];
      assert Reconcile(q, basis, name).Ok?;
      ReportKeys(q, basis, name);
      assert forall i :: 0 <= i < |q| ==> q[i] == ps[i];
    }
  }

  /** On success each report key holds the gain of the last product position
      with that name: an earlier position with the same name is overwritten. */
  lemma {:induction false} ReportEntries(ps: seq<Position>, basis: map<int, real>, name: int -> string)
    requires Reconcile(ps, basis, name).Ok?
    ensures forall i :: 0 <= i < |ps| && IsProduct(ps[i]) && Line(ps[i], basis, name).Ok? &&
                        LastOfItsName(ps, i, basis, name) ==>
              Line(ps[i], basis, name).value.0 in Reconcile(ps, basis, name).value.report &&
              Reconcile(ps, basis, name).value.report[Line(ps[i], basis, name).value.0] ==
                Line(ps[i], basis, name).value.1
  {
    if ps != [] {
      var q, p := ps[..|ps| - 1], ps[|ps| - 1];
      assert Reconcile(q, basis, name).Ok?;
      var h := Reconcile(q, basis, name).value;
      var report := Reconcile(ps, basis, name).value.report;
      ReportEntries(q, basis, name);
      forall i | 0 <= i < |ps| && IsProduct(ps[i]) && Line(ps[i], basis, name).Ok? && LastOfItsName(ps, i, basis, name)
        ensures Line(ps[i], basis, name).value.0 in report
        ensures report[Line(ps[i], basis, name).value.0] == Line(ps[i], basis, name).value.1
      {
        if i < |q| {
          assert q[i] == ps[i];
          assert LastOfItsName(q, i, basis, name) by {
            forall j | i < j < |q| && IsProduct(q[j]) && Line(q[j], basis, name).Ok?
              ensures Line(q[j], basis, name).value.0 != Line(q[i], basis, name).value.0
            {
              assert q[j] == ps[j];
            }
          }
          if IsProduct(p) {
            assert Line(p, basis, name).value.0 != Line(ps[i], basis, name).value.0;
          }
        }
      }
    }
  }

  /** Cash is last-writer-wins: with no CASH position it is 0; otherwise it is
      the value of the CASH position that no other CASH position follows. */
  lemma {:induction false} LastCashIsLastWriter(ps: seq<Position>)
    ensures (forall i :: 0 <= i < |ps| ==> !IsCash(ps[i])) ==> LastCash(ps) == 0.0
    ensures forall i :: 0 <= i < |ps| && IsCash(ps[i]) && (forall j :: i < j < |ps| ==> !IsCash(ps[j])) ==>
              LastCash(ps) == ps[i].value
  {
    if ps != [] {
      var q := ps[..|ps| - 1];
      LastCashIsLastWriter(q);
      assert forall i :: 0 <= i < |q| ==> q[i] == ps[i];
    }
  }
}
