/** The three snapshots the broker hands to the analysis, the outcome type of
    every stage, and the ways the analysis can fail. Money is an exact `real`
    (the program uses binary floats); a date is an already-parsed timestamp,
    ordered as an `int`. */
module Records {

  /** One entry of the cash-movement ledger (`overview["cashMovements"]`). */
  datatype CashMovement = CashMovement(
    movementType: string,  // the "type" field, e.g. "CASH_TRANSACTION"
    description: string,
    change: real,
    date: int)

  /** One executed trade. A buy settles a negative amount (money leaves the account). */
  datatype Transaction = Transaction(
    productId: int,
    buysell: string,
    totalPlusFeeInBaseCurrency: real)

  /** A portfolio identifier arrives either as a native integer or as a numeric string. */
  datatype PositionId = IntId(n: int) | StrId(s: string)

  /** One current holding ("PRODUCT") or the cash balance ("CASH"). */
  datatype Position = Position(id: PositionId, positionType: string, value: real)

  /** Every way the analysis aborts; each is fatal and no partial result survives it. */
  datatype Error =
    | EmptyLedger               // the ledger has no first entry to read a start date from
    | SellNotImplemented        // a transaction that is not a buy
    | BadProductId(text: string) // a product id string that does not read as an integer
    | MissingCostBasis(id: int) // a held product that was never bought
    | ZeroCostBasis(id: int)    // division by a zero cost basis
    | ZeroDeposit               // division by a zero deposit total

  datatype Option<T> = None | Some(value: T)

  datatype Result<T> = Ok(value: T) | Fail(error: Error)
}
