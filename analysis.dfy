/** The whole analysis: `analyze_position` runs the three stages in order over
    the snapshots the broker returned, and `run` derives net worth, net gain and
    the net gain fraction from its results. The snapshots and the product-name
    lookup are parameters; the broker client, the printing and the date parsing
    are not part of this model. */
module Analysis {
  import opened Records
  import opened ProductIds
  import opened Deposits
  import opened CostBasis
  import opened Reconciliation

  /** The six values `analyze_position` returns. */
  datatype Report = Report(
    portfolio: map<string, Gain>,  // calculated_portfolio
    totalBought: real,             // total_buyed
    sumPositions: real,            // sum_positions
    cash: real,
    deposited: real,               // total_payed_to_degiro
    firstDate: int)                // first_transaction

  /** The three figures `run` derives. */
  datatype Summary = Summary(netWorth: real, netGain: real, netGainFraction: real)

  /** What `run` ends with when nothing fails. */
  datatype Statement = Statement(report: Report, summary: Summary)

  /** The stages in the order the program runs them; the first failure wins. */
  function Analyze(ms: seq<CashMovement>, ts: seq<Transaction>, ps: seq<Position>, name: int -> string): Result<Report> {
    match Ledger(ms)
    case Fail(e) => Fail(e)
    case Ok(f) =>
      match Buys(ts)
      case Fail(e) => Fail(e)
      case Ok(b) =>
        match Reconcile(ps, b.basis, name)
        case Fail(e) => Fail(e)
        case Ok(h) => Ok(Report(h.report, b.totalBought, h.sumPositions, h.cash, f.deposited, f.firstDate))
  }

  method AnalyzePosition(ms: seq<CashMovement>, ts: seq<Transaction>, ps: seq<Position>, name: int -> string)
    returns (r: Result<Report>)
    ensures r == Analyze(ms, ts, ps, name)
  {
    var funding := SumDeposits(ms);
    if funding.Fail? {
      return Fail(funding.error);
    }
    var purchases := AggregateBuys(ts);
    if purchases.Fail? {
      return Fail(purchases.error);
    }
    var holdings := ReconcilePositions(ps, purchases.value.basis, name);
    if holdings.Fail? {
      return Fail(holdings.error);
    }
    var f, b, h := funding.value, purchases.value, holdings.value;
    r := Ok(Report(h.report, b.totalBought, h.sumPositions, h.cash, f.deposited, f.firstDate));
  }

  /** Net worth, net gain and net gain fraction; the fraction divides by the
      deposit total, so nothing deposited is an error. */
  function Summarize(sumPositions: real, cash: real, deposited: real): (r: Result<Summary>)
    ensures r.Fail? <==> deposited == 0.0
    ensures r.Fail? ==> r.error == ZeroDeposit
    ensures r.Ok? ==> r.value.netWorth == sumPositions + cash
    ensures r.Ok? ==> r.value.netGain == r.value.netWorth - deposited
    ensures r.Ok? ==> r.value.netGainFraction * deposited == r.value.netGain
  {
    if deposited == 0.0 then Fail(ZeroDeposit)
    else
      var netWorth := sumPositions + cash;
      var netGain := netWorth - deposited;
      Ok(Summary(netWorth, netGain, netGain / deposited))
  }

  method Run(ms: seq<CashMovement>, ts: seq<Transaction>, ps: seq<Position>, name: int -> string)
    returns (r: Result<Statement>)
    ensures Analyze(ms, ts, ps, name).Fail? ==> r == Fail(Analyze(ms, ts, ps, name).error)
    ensures Analyze(ms, ts, ps, name).Ok? ==>
      var a := Analyze(ms, ts, ps, name).value;
      match Summarize(a.sumPositions, a.cash, a.deposited)
      case Fail(e) => r == Fail(e)
      case Ok(s) => r == Ok(Statement(a, s))
  {
    var analysis := AnalyzePosition(ms, ts, ps, name);
    if analysis.Fail? {
      return Fail(analysis.error);
    }
    var a := analysis.value;
    var summary := Summarize(a.sumPositions, a.cash, a.deposited);
    if summary.Fail? {
      return Fail(summary.error);
    }
    r := Ok(Statement(a, summary.value));
  }

  // ----- Properties of the whole analysis -----

  /** With money deposited, the account is ahead exactly when the net gain
      fraction is positive. */
  lemma SummaryGainSign(sumPositions: real, cash: real, deposited: real)
    requires deposited > 0.0
    ensures Summarize(sumPositions, cash, deposited).Ok?
    ensures Summarize(sumPositions, cash, deposited).value.netGainFraction > 0.0 <==> sumPositions + cash > deposited
  {
  }

  /** An empty ledger aborts the analysis before anything else is looked at.
      This follows directly from the definitions of `Ledger` and `Analyze`. */
  lemma EmptyLedgerAborts(ts: seq<Transaction>, ps: seq<Position>, name: int -> string)
    ensures Analyze([], ts, ps, name) == Fail(EmptyLedger)
  {
  }

  /** A single non-buy anywhere aborts the analysis: no partial report survives. */
  lemma SellAborts(ms: seq<CashMovement>, ts: seq<Transaction>, ps: seq<Position>, name: int -> string, k: int)
    requires ms != []
    requires 0 <= k < |ts| && ts[k].buysell != "B"
    ensures Analyze(ms, ts, ps, name) == Fail(SellNotImplemented)
  {
  }

  /** A product held but never bought aborts the analysis. */
  lemma NeverBoughtAborts(ms: seq<CashMovement>, ts: seq<Transaction>, ps: seq<Position>, name: int -> string, k: int, n: int)
    requires 0 <= k < |ps| && IsProduct(ps[k]) && Normalize(ps[k].id) == Ok(n)
    requires forall i :: 0 <= i < |ts| ==> ts[i].productId != n
    ensures Analyze(ms, ts, ps, name).Fail?
  {
    if ms != [] && AllBuys(ts) {
      NeverBought(ts, n);
      assert Line(ps[k], Basis(ts), name).Fail?;
      ReconcileFailure(ps, Basis(ts), name);
    }
  }

  /** Conversely, the analysis succeeds once the ledger is not empty, every
      transaction is a buy and every product position can be priced. */
  lemma AnalyzeSucceeds(ms: seq<CashMovement>, ts: seq<Transaction>, ps: seq<Position>, name: int -> string)
    requires ms != [] && AllBuys(ts)
    requires forall i :: 0 <= i < |ps| && IsProduct(ps[i]) ==>
               Normalize(ps[i].id).Ok? && Normalize(ps[i].id).value in Basis(ts) &&
               Basis(ts)[Normalize(ps[i].id).value] != 0.0
    ensures Analyze(ms, ts, ps, name).Ok?
  {
    ReconcileFailure(ps, Basis(ts), name);
  }

  /** On success the report's figures are the independent sums: the deposits,
      the purchases, the product values and the last cash balance. */
  lemma AnalyzeTotals(ms: seq<CashMovement>, ts: seq<Transaction>, ps: seq<Position>, name: int -> string)
    requires Analyze(ms, ts, ps, name).Ok?
    ensures Analyze(ms, ts, ps, name).value.deposited == SumChanges(DepositEntries(ms))
    ensures Analyze(ms, ts, ps, name).value.totalBought == SumAt(Basis(ts), Ids(ts))
    ensures Analyze(ms, ts, ps, name).value.sumPositions == ProductValueSum(ps)
    ensures Analyze(ms, ts, ps, name).value.cash == LastCash(ps)
  {
    DepositTotalIsFilteredSum(ms);
    TotalIsSumOfBasis(ts);
    ReconcileTotals(ps, Basis(ts), name);
  }

  /** One deposit of 1000, one purchase of product 5 for 600, product 5 (listed
      with a string id) now worth 750 and 200 in cash: a gain of 150 (25%) on
      the position, a net worth of 950 and a net loss of 50 (-5%). */
  lemma WorkedExample(name: int -> string)
    requires name(5) == "AcmeCorp"
    ensures
      var ms := [CashMovement("CASH_TRANSACTION", "Ingreso", 1000.0, 20190201)];
      var ts := [Transaction(5, "B", -600.0)];
      var ps := [Position(StrId("5"), "PRODUCT", 750.0), Position(IntId(0), "CASH", 200.0)];
      Analyze(ms, ts, ps, name) ==
        Ok(Report(map["AcmeCorp" := Gain(750.0, 150.0, 0.25)], 600.0, 750.0, 200.0, 1000.0, 20190201)) &&
      Summarize(750.0, 200.0, 1000.0) == Ok(Summary(950.0, -50.0, -0.05))
  {
    var ms := [CashMovement("CASH_TRANSACTION", "Ingreso", 1000.0, 20190201)];
    var ts := [Transaction(5, "B", -600.0)];
    var ps := [Position(StrId("5"), "PRODUCT", 750.0), Position(IntId(0), "CASH", 200.0)];
    assert ms[..0] == [] && ts[..0] == [];
    assert Ledger(ms) == Ok(Funding(1000.0, 20190201));
    assert Buys(ts) == Ok(Purchases(map[5 := 600.0], 600.0));
    assert "5"[..0] == [];
    assert Normalize(StrId("5")) == Ok(5);
    var basis := map[5 := 600.0];
    var gain := Gain(750.0, 150.0, 0.25);
    assert ps[..1][..0] == [] && ps[..1] == [ps[0]] && ps[..|ps| - 1] == ps[..1];
    assert Line(ps[0], basis, name) == Ok(("AcmeCorp", gain));
    assert Reconcile(ps[..1], basis, name) == Ok(Holdings(map["AcmeCorp" := gain], 750.0, 0.0));
    assert Reconcile(ps, basis, name) == Ok(Holdings(map["AcmeCorp" := gain], 750.0, 200.0));
  }
}
