# DEGIRO global position — a verified model of the position reconciliation

The program logs into a DEGIRO brokerage account and prints, per holding, the
current value and the unrealised gain against what was paid for it, followed by
account-wide totals: money spent on purchases, the value of all positions, the
cash balance, money deposited, the date of the first deposit, net worth and net
gain. All of its logic sits in `Main.analyze_position` and the arithmetic at the
end of `Main.run`. This project models that logic in Dafny and proves what it
computes.

`analyze_position` is a pipeline of three loops over three snapshots that the
broker returns:

1. **Deposits** (`deposits.dfy`, module `Deposits`). The loop walks the cash
   ledger. It adds up the `change` of every `CASH_TRANSACTION` whose description
   is `"flatex Deposit"` or `"Ingreso"`. It also keeps the earliest date, starting
   from the date of the ledger's first entry, whatever that entry is. An empty
   ledger fails, because the program reads `cashMovements[0]`.
2. **Cost basis** (`cost_basis.dfy`, module `CostBasis`). The loop walks the
   transactions. Any direction other than `"B"` aborts everything. Otherwise it
   accumulates `-totalPlusFeeInBaseCurrency` per product id in a map, plus a grand
   total.
3. **Reconciliation** (`reconcile.dfy`, module `Reconciliation`). The loop walks
   the portfolio. A `PRODUCT` position has its id normalised to an integer
   (`product_id.dfy`, module `ProductIds`) and its cost basis looked up; a
   missing key or a zero cost is fatal. Its value, gain and gain fraction are then
   stored under the product's display name, and its value is added to the sum of
   positions. A `CASH` position overwrites the cash balance. Other positions are
   ignored.

`run` then derives net worth, net gain and the net gain fraction
(`analysis.dfy`, module `Analysis`). The gain fraction divides by the deposit
total, so a zero deposit total is an error. `records.dfy` (module `Records`)
holds the record types and the error outcomes.

Each loop is a `method` with a `for` loop and local `map` and accumulator
variables, as in the source. Each method is proved equal to a specification
function that folds over the prefix of its input. Lemmas then relate those
functions to independent definitions: filtered sums, per-product sums, the last
`CASH` entry, the minimum date. Every exception the program can raise on these
inputs is an `Error` value in a `Result`, and the first failure wins, as it does
in the source.

Modelling choices:
- Money is an exact `real`; the program uses binary floats.
- Dates are already-parsed timestamps ordered as `int`.
- The product-name lookup is a function parameter `name: int -> string`.
- A portfolio id is `IntId(n)` or `StrId(s)`.

What the code does, precisely:
- A buy is a transaction with `buysell == "B"`.
- The first date starts from the date of `cashMovements[0]`, even when that entry is not a deposit, and is lowered only by deposits. So it is the earliest deposit date only when no earlier non-deposit entry heads the ledger.
- The cost basis adds `-totalPlusFeeInBaseCurrency` unchanged, whatever its sign.
- The deposit labels are the two fixed strings `"flatex Deposit"` and `"Ingreso"`.
- The zero-cost-basis and zero-deposit errors are Python's `ZeroDivisionError`. The missing cost basis is its `KeyError`, and a non-numeric id string is the `ValueError` of `int`.

## Model

| member | source | states |
|---|---|---|
| `Deposits.SumDeposits` | degiro.py:60-67 | the deposit loop returns exactly `Ledger(ms)`: `EmptyLedger` on an empty ledger, otherwise the running deposit total and the running earliest date started at the first entry's date |
| `Deposits.DepositEntries` | degiro.py:63 | the filtered ledger holds every movement that is a `CASH_TRANSACTION` with description "flatex Deposit" or "Ingreso", as many times as the ledger holds it, and nothing else |
| `Deposits.DepositTotalIsFilteredSum` | degiro.py:62-64 | the deposit total equals the sum of `change` over exactly the deposit entries |
| `Deposits.DepositTotalAppend` | degiro.py:62-64 | the deposit total of two concatenated ledgers is the sum of their totals |
| `Deposits.NoDepositsTotalZero` | degiro.py:63-64 | a ledger without deposits totals 0 |
| `Deposits.NonDepositsAddNothing` | degiro.py:63-64 | appending movements that are not deposits leaves the total unchanged |
| `Deposits.DepositTotalReorder` | degiro.py:62-64 | the deposit total is the same for any reordering (equal multisets) of the ledger |
| `Deposits.EarliestDepositIsMinimum` | degiro.py:65-67 | the running earliest date is at most the start date and every deposit's date, and equals the start date or some deposit's date |
| `Deposits.LedgerFirstDate` | degiro.py:61-67 | on a non-empty ledger the returned first date is at most the first entry's date and every deposit date, and is one of them |
| `CostBasis.AggregateBuys` | degiro.py:71-85 | the purchase loop returns exactly `Buys(ts)`: `SellNotImplemented` if any direction is not "B", otherwise the per-product map and the grand total |
| `CostBasis.BasisIsCostPerProduct` | degiro.py:82-85 | the map's keys are exactly the product ids of the transactions, and each key holds the sum of `-totalPlusFeeInBaseCurrency` over that product's transactions |
| `CostBasis.Ids` | degiro.py:82-85 | the distinct product ids in order of first purchase are duplicate-free and are exactly the map's keys |
| `CostBasis.TotalIsSumOfBasis` | degiro.py:80-85 | the grand total `total_buyed` equals the sum of the values in the per-product map |
| `CostBasis.SumAtUpdate` | degiro.py:82-83 | adding to the value at a key listed once changes the sum over the keys by the same amount |
| `CostBasis.SumAtFresh` | degiro.py:84-85 | inserting a key not listed leaves the sum over the listed keys unchanged |
| `CostBasis.NeverBought` | degiro.py:82-85 | a product with no transaction has no key in the map and a cost of 0 |
| `CostBasis.CostOfAbsent` | degiro.py:82-85 | a product with no transaction has accumulated cost 0 |
| `CostBasis.SellAnywhereAborts` | degiro.py:77-78 | one non-"B" transaction anywhere in the history makes the stage fail with `SellNotImplemented`, whatever surrounds it |
| `ProductIds.ParseInt` | degiro.py:101 | `int` on a string: a plain run of digits reads as its decimal value; anything accepted has only digits after its first character and, when that first character is not a digit, at least one digit after it (a bare sign is refused); a leading `-` gives a value at most 0, any other first character a value at least 0 |
| `ProductIds.Normalize` | degiro.py:100-101 | an integer id is kept as it is, so normalising twice changes nothing; a string id is accepted exactly when it parses, and has its parsed value; every failure is `BadProductId` of that string |
| `ProductIds.NormalizeAgnostic` | degiro.py:100-101 | the decimal string of an id and the integer id normalise to the same integer |
| `ProductIds.ParseDecimalString` | degiro.py:101 | reading back the decimal text of any integer gives that integer |
| `ProductIds.NatDigitsValue` | degiro.py:101 | the decimal digits of a natural number read back as that number |
| `ProductIds.NormalizePaddedForms` | degiro.py:101 | any run of leading zeros before the digits of a natural number, with or without a `+` sign, normalises to that number; with a `-` sign it normalises to its negation |
| `ProductIds.LeadingZero` | degiro.py:101 | a leading zero does not change the value of a digit string |
| `ProductIds.ZerosThenDigits` | degiro.py:101 | any run of leading zeros does not change the value of a digit string |
| `ProductIds.NormalizeRefuses` | degiro.py:101 | an empty string, a bare `+` or `-`, or a non-numeric unsigned string is refused with `BadProductId` |
| `ProductIds.DigitChar` | degiro.py:101 | a digit's character is a decimal digit whose value is that digit |
| `Reconciliation.GainOf` | degiro.py:104-108 | the entry keeps the value; the gain is value minus cost; the gain fraction times the cost is the gain (so the fraction is value / cost - 1); the gain is positive exactly when the value exceeds the cost |
| `Reconciliation.Line` | degiro.py:101-107 | a position is priced exactly when its id is an integer or parses as one, that id has a cost basis, and the cost is not zero; the errors come in the source's order: an id `int` refuses, then a product with no cost basis (`KeyError`), then a zero cost basis (`ZeroDivisionError`); on success the entry is under the product's display name with the position's value, a non-zero cost, the gain value minus cost, a gain fraction whose product with the cost is the gain, and a gain positive exactly when the value exceeds the cost |
| `Reconciliation.Visit` | degiro.py:99-111 | one position: it fails exactly when it is a PRODUCT that cannot be priced; a PRODUCT sets its name's entry and adds its value to the sum; a CASH position replaces the cash; nothing else changes |
| `Reconciliation.ReconcilePositions` | degiro.py:92-111 | the portfolio loop returns exactly `Reconcile(ps, basis, name)` and stops at the first position that cannot be priced |
| `Reconciliation.FailureSticks` | degiro.py:95-108 | once a prefix of the portfolio has failed, the whole walk fails with the same error |
| `Reconciliation.ReconcileFailure` | degiro.py:99-108 | the walk fails exactly when some PRODUCT position cannot be priced: an id that is not an integer, no cost basis, or a zero cost basis. The error is that of the first such position |
| `Reconciliation.ReconcileTotals` | degiro.py:93-111 | on success every product was priced, `sum_positions` is the sum of the PRODUCT values, and `cash` is the last CASH value (0 if none) |
| `Reconciliation.ReportKeys` | degiro.py:102-104 | on success the report has a key exactly for each product position's display name |
| `Reconciliation.ReportEntries` | degiro.py:102-108 | on success each product position that no later product shares a name with has its value, gain and gain fraction under its name; an earlier namesake is overwritten |
| `Reconciliation.LastCashIsLastWriter` | degiro.py:110-111 | with no CASH position the cash is 0, otherwise it is the value of the CASH position no other CASH position follows |
| `Analysis.AnalyzePosition` | degiro.py:45-113 | the three stages run in order, and the first failure is the result: `Analyze(ms, ts, ps, name)` |
| `Analysis.Summarize` | degiro.py:38-42 | fails with `ZeroDeposit` exactly when nothing was deposited; otherwise net worth is positions plus cash, net gain is net worth minus deposits, and the fraction times the deposits is the net gain |
| `Analysis.SummaryGainSign` | degiro.py:41-42 | with a positive deposit total the net gain fraction is positive exactly when net worth exceeds the deposits |
| `Analysis.Run` | degiro.py:27-42 | a failed analysis is passed on unchanged; otherwise the result is the analysis with its summary, or `ZeroDeposit` |
| `Analysis.EmptyLedgerAborts` | degiro.py:61 | an empty ledger aborts the analysis with `EmptyLedger`, whatever the other inputs are |
| `Analysis.SellAborts` | degiro.py:76-78 | with a non-empty ledger, a single non-"B" transaction aborts the whole analysis with `SellNotImplemented`, so no partial report is returned |
| `Analysis.NeverBoughtAborts` | degiro.py:101-106 | a PRODUCT position whose id was never bought makes the analysis fail |
| `Analysis.AnalyzeSucceeds` | degiro.py:59-111 | with a non-empty ledger, only buys, and every PRODUCT position's id parsed, bought and of non-zero cost, the analysis succeeds |
| `Analysis.AnalyzeTotals` | degiro.py:45-113 | on success the deposit total, the purchase total, the sum of positions and the cash each equal their independent definitions |
| `Analysis.WorkedExample` | degiro.py:45-113 | deposit 1000, buy product 5 for 600, hold it (string id "5") at 750 plus 200 in cash: the report is {AcmeCorp: 750, 150, 0.25}, net worth 950, net gain -50, fraction -0.05 |

## Left out

- The broker client is not modelled: the login and the fetches of the account overview, the portfolio and the transactions (degiro.py:21-22, 55-57) are network I/O through a third-party library. Their results are the parameters `ms`, `ts` and `ps`, and the fixed date range they are fetched for is not modelled.
- `get_product_name` / `product_info` (degiro.py:115-117) is a network lookup. It is the total function parameter `name`, so a failing lookup is not modelled.
- The `Main` class is not a class here. It holds only the command-line arguments and the client, and `analyze_position` updates none of its fields.
- All printing in `run` is left out (degiro.py:29-43, apart from the arithmetic). So is the fact that the report is printed before the zero-deposit division fails.
- Argument parsing, the password prompt, the `__main__` block and logging are left out (degiro.py:120-144).
- `datetime.strptime` and time zones are left out: dates arrive already parsed, as ordered integers.
- Floating-point rounding is left out: amounts are exact reals.
- Missing fields in the broker's records (a `KeyError` on `o["type"]` and the like) are left out: the records are typed.
- `ProductIds.ParseInt` accepts an optional sign followed by ASCII digits only. Python's `int` also strips surrounding white space, allows underscores between digits and reads non-ASCII decimal digits; those forms are refused here. A float id, which `int` truncates, cannot arise because an id is an integer or a string.
- Python's dictionary iteration order, which decides the order of the printed report lines, is not modelled: the report is a `map`.
