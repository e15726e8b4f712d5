/** The data the calculator works on: a user's planned allocation across gold,
    bank fixed deposits (FDs) and the Nifty 50 index, the FD rate table, and
    the calculator's outcomes. */
module Portfolio {
  import opened PyDict

  type Bank = string
  type Tenure = string

  /** One bank's tenures: tenure label -> amount (in an allocation) or annual
      percentage rate (in a rate table). */
  type Row = Dict<Tenure, real>

  /** bank -> tenure -> value, the shape of both the FD allocation and the
      rate table. */
  type Table = Dict<Bank, Row>

  /** `investment_amounts`: {"gold": ..., "fd": {bank: {tenure: amount}}, "nifty50": ...}. */
  datatype Allocation = Allocation(gold: real, fd: Table, nifty: real)

  /** A gold price that may be missing (`None` when fetching it failed). */
  datatype Option<T> = None | Some(value: T)

  /** The ways the calculation raises instead of returning. */
  datatype Error =
    | PriceUnavailable      // `amount / None`: a TypeError
    | ZeroPrice             // `amount / 0`: a ZeroDivisionError
    | MissingBank(bank: Bank) // `investment_amounts["fd"][bank]`: a KeyError

  datatype Result<T> = Ok(value: T) | Err(error: Error)

  /** `(total_investment, total_return)`. */
  datatype Totals = Totals(investment: real, expected: real)

  /** A table and each of its rows are well-formed dicts. */
  predicate TableWellFormed(t: Table) {
    && WellFormed(t)
    && forall b :: b in t.entries ==> WellFormed(t.entries[b])
  }

  /** Every amount in the FD part of an allocation is non-negative (the form
      only accepts amounts >= 0). */
  predicate NonnegativeAmounts(fd: Table) {
    forall b, t :: b in fd.entries && t in fd.entries[b].entries ==> 0.0 <= fd.entries[b].entries[t]
  }

  /** Two tables with the same banks, tenures and values, possibly listed in
      different orders. */
  predicate SameContents(t1: Table, t2: Table) {
    && t1.entries.Keys == t2.entries.Keys
    && forall b :: b in t1.entries ==> t1.entries[b].entries == t2.entries[b].entries
  }
}
