/** `calculate_returns`: the projected value of an allocation under flat growth
    assumptions (5% for gold, the table rate for each FD, 10% for Nifty 50). */
module Returns {
  import opened PyDict
  import opened Sums
  import opened Portfolio

  /** A principal grown once by an annual percentage rate. */
  function Grown(amount: real, rate: real): real {
    amount * (1.0 + rate / 100.0)
  }

  /** The gold leg divides the amount by the spot price and multiplies it by
      the spot price grown 5%; the price cancels. */
  function GoldReturn(gold: real, price: real): (r: real)
    requires price != 0.0
    ensures r == gold * 1.05
  {
    (gold / price) * (price * 1.05)
  }

  /** Per-tenure term of one bank: the grown amount when the allocation row
      holds the tenure, nothing otherwise. */
  function LegTerm(rateRow: Row, amountRow: Row): Tenure -> real {
    t => if t in rateRow.entries && t in amountRow.entries
         then Grown(amountRow.entries[t], rateRow.entries[t])
         else 0.0
  }

  /** One bank's legs summed over the tenures of its rate row. */
  function BankReturn(rates: Table, fd: Table, b: Bank): real {
    if b in rates.entries && b in fd.entries
    then Sum(rates.entries[b].order, LegTerm(rates.entries[b], fd.entries[b]))
    else 0.0
  }

  /** BankReturn as the term of a sum over banks. */
  function BankTerm(rates: Table, fd: Table): Bank -> real {
    b => BankReturn(rates, fd, b)
  }

  /** Reference value of the FD total: for every (bank, tenure) of the rate
      table whose tenure the allocation holds for that bank, the amount grown
      by the rate. Allocation tenures and banks the table lacks add nothing. */
  function MatchedReturn(rates: Table, fd: Table): real {
    Sum(rates.order, BankTerm(rates, fd))
  }

  /** The principal counterpart of MatchedReturn: the same legs, not grown. */
  function PrincipalTerm(rates: Table, fd: Table): Bank -> real {
    b => if b in rates.entries && b in fd.entries
         then Sum(rates.entries[b].order, PrincipalLegTerm(rates.entries[b], fd.entries[b]))
         else 0.0
  }

  function PrincipalLegTerm(rateRow: Row, amountRow: Row): Tenure -> real {
    t => if t in rateRow.entries && t in amountRow.entries then amountRow.entries[t] else 0.0
  }

  function MatchedPrincipal(rates: Table, fd: Table): real {
    Sum(rates.order, PrincipalTerm(rates, fd))
  }

  /** Visiting bank b raises a KeyError: its rate row has a tenure, so the
      inner loop runs and looks b up in an allocation that lacks it. A bank
      with an empty rate row is never looked up. */
  predicate Aborts(rates: Table, fd: Table, b: Bank) {
    b in rates.entries && |rates.entries[b].order| > 0 && b !in fd.entries
  }

  /** The loop visits every bank of the rate table without a KeyError. */
  predicate Completes(rates: Table, fd: Table) {
    forall b :: b in rates.order ==> !Aborts(rates, fd, b)
  }

  /** The i-th bank of the rate table is the first one whose visit raises. */
  predicate FirstAbortAt(rates: Table, fd: Table, i: nat) {
    && i < |rates.order|
    && Aborts(rates, fd, rates.order[i])
    && forall j :: 0 <= j < i ==> !Aborts(rates, fd, rates.order[j])
  }

  /** The first n iterations of the outer loop over the rate table: stop at
      the first bank whose visit raises, otherwise add the bank's legs. An
      error always names one of those banks, and one whose visit raises. */
  function FdLoop(rates: Table, fd: Table, n: nat): (r: Result<real>)
    requires n <= |rates.order|
    ensures r.Err? ==> r.error.MissingBank? && Aborts(rates, fd, r.error.bank)
    decreases n
  {
    if n == 0 then Ok(0.0)
    else
      var previous := FdLoop(rates, fd, n - 1);
      var b := rates.order[n - 1];
      if previous.Err? then previous
      else if Aborts(rates, fd, b) then Err(MissingBank(b))
      else Ok(previous.value + BankReturn(rates, fd, b))
  }

  /** The first n iterations finish exactly when none of those banks raises. */
  lemma {:induction false} FdLoopCompletes(rates: Table, fd: Table, n: nat)
    requires n <= |rates.order|
    ensures FdLoop(rates, fd, n).Ok? <==> forall i :: 0 <= i < n ==> !Aborts(rates, fd, rates.order[i])
    decreases n
  {
    if n > 0 {
      FdLoopCompletes(rates, fd, n - 1);
    }
  }

  /** When they finish, the running total is the sum of those banks' matched
      grown legs. */
  lemma {:induction false} FdLoopTotal(rates: Table, fd: Table, n: nat)
    requires n <= |rates.order|
    requires FdLoop(rates, fd, n).Ok?
    ensures FdLoop(rates, fd, n).value == Sum(rates.order[..n], BankTerm(rates, fd))
    decreases n
  {
    if n > 0 {
      var b := rates.order[n - 1];
      FdLoopTotal(rates, fd, n - 1);
      assert rates.order[..n] == rates.order[..n - 1] + [b];
      SumAppend(rates.order[..n - 1], b, BankTerm(rates, fd));
    }
  }

  /** When they raise, the error names the first of those banks whose visit
      raises. */
  lemma {:induction false} FdLoopFirstError(rates: Table, fd: Table, n: nat)
    requires n <= |rates.order|
    requires FdLoop(rates, fd, n).Err?
    ensures exists i: nat :: i < n && FirstAbortAt(rates, fd, i) && FdLoop(rates, fd, n).error == MissingBank(rates.order[i])
    decreases n
  {
    var previous := FdLoop(rates, fd, n - 1);
    if previous.Err? {
      FdLoopFirstError(rates, fd, n - 1);
      var i: nat :| i < n - 1 && FirstAbortAt(rates, fd, i) && previous.error == MissingBank(rates.order[i]);
      assert i < n && FirstAbortAt(rates, fd, i) && FdLoop(rates, fd, n).error == MissingBank(rates.order[i]);
    } else {
      FdLoopCompletes(rates, fd, n - 1);
      assert FirstAbortAt(rates, fd, n - 1);
    }
  }

  /** `fd_returns` after both loops, or the KeyError of the first bank of the
      rate table that needs a lookup the allocation cannot answer. */
  function FdReturns(rates: Table, fd: Table): (r: Result<real>)
    ensures r.Ok? <==> Completes(rates, fd)
    ensures r.Ok? ==> r.value == MatchedReturn(rates, fd)
    ensures r.Err? ==> exists i: nat :: FirstAbortAt(rates, fd, i) && r.error == MissingBank(rates.order[i])
  {
    var n := |rates.order|;
    assert rates.order[..n] == rates.order;
    FdLoopCompletes(rates, fd, n);
    if FdLoop(rates, fd, n).Ok? then
      FdLoopTotal(rates, fd, n);
      FdLoop(rates, fd, n)
    else
      FdLoopFirstError(rates, fd, n);
      FdLoop(rates, fd, n)
  }

  /** Once a bank has raised, later banks are never visited. */
  lemma {:induction false} FdLoopErrorSticks(rates: Table, fd: Table, m: nat, n: nat)
    requires m <= n <= |rates.order|
    requires FdLoop(rates, fd, m).Err?
    ensures FdLoop(rates, fd, n) == FdLoop(rates, fd, m)
    decreases n
  {
    if m < n {
      FdLoopErrorSticks(rates, fd, m, n - 1);
    }
  }

  /** One more bank of the outer loop, from a state that has not failed. */
  lemma FdLoopStep(rates: Table, fd: Table, n: nat, total: real)
    requires n < |rates.order|
    requires FdLoop(rates, fd, n) == Ok(total)
    ensures !Aborts(rates, fd, rates.order[n]) ==>
      FdLoop(rates, fd, n + 1) == Ok(total + BankReturn(rates, fd, rates.order[n]))
    ensures Aborts(rates, fd, rates.order[n]) ==>
      FdLoop(rates, fd, n + 1) == Err(MissingBank(rates.order[n]))
  {
  }

  /** The double loop as written: outer over the banks of the rate table,
      inner (BankLoop) over that bank's tenures, all adding into one running
      total; it stops at the first KeyError. */
  method FdReturnsLoop(rates: Table, fd: Table) returns (r: Result<real>)
    requires TableWellFormed(rates)
    ensures r == FdLoop(rates, fd, |rates.order|)
  {
    var total := 0.0;
    var i := 0;
    while i < |rates.order|
      invariant i <= |rates.order|
      invariant FdLoop(rates, fd, i) == Ok(total)
    {
      var step := BankLoop(rates, fd, rates.order[i], total);
      FdLoopStep(rates, fd, i, total);
      if step.Err? {
        FdLoopErrorSticks(rates, fd, i + 1, |rates.order|);
        return step;
      }
      total := step.value;
      i := i + 1;
    }
    return Ok(total);
  }

  /** The inner loop for one bank: for each tenure of its rate row, look the
      bank up in the allocation (a KeyError when it is missing) and add the
      grown amount when the allocation holds the tenure. */
  method BankLoop(rates: Table, fd: Table, bank: Bank, total: real) returns (r: Result<real>)
    requires bank in rates.entries && WellFormed(rates.entries[bank])
    ensures r.Ok? <==> !Aborts(rates, fd, bank)
    ensures r.Ok? ==> r.value == total + BankReturn(rates, fd, bank)
    ensures r.Err? ==> r.error == MissingBank(bank)
  {
    var row := rates.entries[bank];
    var acc := total;
    var k := 0;
    while k < |row.order|
      invariant k <= |row.order|
      invariant 0 < k ==> bank in fd.entries
      invariant acc == total +
        if bank in fd.entries then Sum(row.order[..k], LegTerm(row, fd.entries[bank])) else 0.0
    {
      var tenure := row.order[k];
      if bank !in fd.entries {
        return Err(MissingBank(bank));
      }
      var amounts := fd.entries[bank];
      assert row.order[..k + 1][..k] == row.order[..k];
      if tenure in amounts.entries {
        acc := acc + Grown(amounts.entries[tenure], row.entries[tenure]);
      }
      k := k + 1;
    }
    assert row.order[..|row.order|] == row.order;
    return Ok(acc);
  }

  /** `calculate_returns(investment_amounts, fd_rates, gold_price)`. */
  function CalculateReturns(alloc: Allocation, rates: Table, price: Option<real>): (r: Result<Totals>)
    ensures price == None ==> r == Err(PriceUnavailable)
    ensures price == Some(0.0) ==> r == Err(ZeroPrice)
    ensures r.Ok? <==>
      price.Some? && price.value != 0.0 && Completes(rates, alloc.fd)
    ensures r.Err? && price.Some? && price.value != 0.0 ==>
      r.error.MissingBank? && Aborts(rates, alloc.fd, r.error.bank)
    ensures r.Ok? ==> r.value.investment == alloc.gold + MatchedReturn(rates, alloc.fd) + alloc.nifty
    ensures r.Ok? ==> r.value.expected == alloc.gold * 1.05 + MatchedReturn(rates, alloc.fd) + alloc.nifty * 1.10
  {
    match price
    case None => Err(PriceUnavailable)
    case Some(p) =>
      if p == 0.0 then Err(ZeroPrice)
      else
        match FdReturns(rates, alloc.fd)
        case Err(e) => Err(e)
        case Ok(fdReturns) =>
          var goldReturn := GoldReturn(alloc.gold, p);
          var niftyReturn := alloc.nifty * 1.10;
          Ok(Totals(alloc.gold + fdReturns + alloc.nifty, goldReturn + fdReturns + niftyReturn))
  }
}
