/** What `calculate_returns` promises for all inputs: the gold price cancels,
    the gain over the reported investment comes from gold and Nifty 50 only,
    only rated FD legs count, and the iteration order of the rate table does
    not matter. */
module ReturnProperties {
  import opened PyDict
  import opened Sums
  import opened Portfolio
  import opened Returns

  /** Every rate in the table is non-negative. */
  predicate NonnegativeRates(rates: Table) {
    forall b, t :: b in rates.entries && t in rates.entries[b].entries ==> 0.0 <= rates.entries[b].entries[t]
  }

  /** The two FD allocations look the same through the rate table: they hold
      the same banks of the table and, for those banks, the same rated
      tenures with the same amounts. They may differ anywhere else. */
  predicate AgreeOnRated(rates: Table, fd1: Table, fd2: Table) {
    forall b :: b in rates.entries ==>
      && (b in fd1.entries <==> b in fd2.entries)
      && (b in fd1.entries ==>
            forall t :: t in rates.entries[b].entries ==>
              && (t in fd1.entries[b].entries <==> t in fd2.entries[b].entries)
              && (t in fd1.entries[b].entries ==> fd1.entries[b].entries[t] == fd2.entries[b].entries[t]))
  }

  /** Any two non-zero spot prices give the same outcome: the price only
      enters the gold leg, where it cancels. */
  lemma PriceCancels(alloc: Allocation, rates: Table, p1: real, p2: real)
    requires p1 != 0.0 && p2 != 0.0
    ensures CalculateReturns(alloc, rates, Some(p1)) == CalculateReturns(alloc, rates, Some(p2))
  {
  }

  /** The reported gain is 5% of gold plus 10% of Nifty 50: FD growth is in
      both totals, so it cancels out of the difference. */
  lemma GainIsGoldAndNifty(alloc: Allocation, rates: Table, price: Option<real>)
    ensures CalculateReturns(alloc, rates, price).Ok? ==>
      CalculateReturns(alloc, rates, price).value.expected
        - CalculateReturns(alloc, rates, price).value.investment
        == 0.05 * alloc.gold + 0.10 * alloc.nifty
    ensures CalculateReturns(alloc, rates, price).Ok? && 0.0 <= alloc.gold && 0.0 <= alloc.nifty ==>
      CalculateReturns(alloc, rates, price).value.investment
        <= CalculateReturns(alloc, rates, price).value.expected
  {
  }

  /** With non-negative amounts and rates, every matched leg grows and the
      FD total is at least the principal it grows. */
  lemma {:induction false} GrowthBounds(rates: Table, fd: Table)
    requires NonnegativeAmounts(fd) && NonnegativeRates(rates)
    ensures 0.0 <= MatchedPrincipal(rates, fd) <= MatchedReturn(rates, fd)
  {
    forall b | b in rates.order
      ensures 0.0 <= PrincipalTerm(rates, fd)(b) <= BankTerm(rates, fd)(b)
    {
      if b in rates.entries && b in fd.entries {
        var row, amounts := rates.entries[b], fd.entries[b];
        forall t | t in row.order
          ensures 0.0 <= PrincipalLegTerm(row, amounts)(t) <= LegTerm(row, amounts)(t)
        {
          if t in row.entries && t in amounts.entries {
            LegGrows(amounts.entries[t], row.entries[t]);
          }
        }
        SumNonnegative(row.order, PrincipalLegTerm(row, amounts));
        SumMonotone(row.order, PrincipalLegTerm(row, amounts), LegTerm(row, amounts));
      }
    }
    SumNonnegative(rates.order, PrincipalTerm(rates, fd));
    SumMonotone(rates.order, PrincipalTerm(rates, fd), BankTerm(rates, fd));
  }

  /** A non-negative principal at a non-negative rate does not shrink. */
  lemma LegGrows(amount: real, rate: real)
    requires 0.0 <= amount && 0.0 <= rate
    ensures amount <= Grown(amount, rate)
  {
    assert Grown(amount, rate) == amount + amount * (rate / 100.0);
    assert 0.0 <= amount * (rate / 100.0);
  }

  /** With non-negative amounts and rates both totals are non-negative and
      the expected return covers the reported investment. */
  lemma TotalsNonnegative(alloc: Allocation, rates: Table, price: Option<real>)
    requires 0.0 <= alloc.gold && 0.0 <= alloc.nifty
    requires NonnegativeAmounts(alloc.fd) && NonnegativeRates(rates)
    ensures CalculateReturns(alloc, rates, price).Ok? ==>
      && 0.0 <= CalculateReturns(alloc, rates, price).value.investment
      && CalculateReturns(alloc, rates, price).value.investment
           <= CalculateReturns(alloc, rates, price).value.expected
  {
    GrowthBounds(rates, alloc.fd);
  }

  /** The FD loop only reads the allocation at the banks and tenures of the
      rate table: allocations that agree there give the same outcome, error
      included. */
  lemma FdReturnsReadsRatedLegs(rates: Table, fd1: Table, fd2: Table)
    requires AgreeOnRated(rates, fd1, fd2)
    ensures FdReturns(rates, fd1) == FdReturns(rates, fd2)
  {
    FdLoopReadsRatedLegs(rates, fd1, fd2, |rates.order|);
  }

  lemma {:induction false} FdLoopReadsRatedLegs(rates: Table, fd1: Table, fd2: Table, n: nat)
    requires AgreeOnRated(rates, fd1, fd2)
    requires n <= |rates.order|
    ensures FdLoop(rates, fd1, n) == FdLoop(rates, fd2, n)
    decreases n
  {
    if n > 0 {
      FdLoopReadsRatedLegs(rates, fd1, fd2, n - 1);
      var b := rates.order[n - 1];
      if b in rates.entries && b in fd1.entries {
        var row := rates.entries[b];
        SumCongruent(row.order, LegTerm(row, fd1.entries[b]), LegTerm(row, fd2.entries[b]));
      }
      assert BankReturn(rates, fd1, b) == BankReturn(rates, fd2, b);
      assert Aborts(rates, fd1, b) == Aborts(rates, fd2, b);
      var previous := FdLoop(rates, fd1, n - 1);
      if previous.Err? {
        assert FdLoop(rates, fd1, n) == previous == FdLoop(rates, fd2, n);
      } else if Aborts(rates, fd1, b) {
        assert FdLoop(rates, fd1, n) == Err(MissingBank(b)) == FdLoop(rates, fd2, n);
      } else {
        assert FdLoop(rates, fd1, n) == Ok(previous.value + BankReturn(rates, fd1, b));
        assert FdLoop(rates, fd2, n) == Ok(previous.value + BankReturn(rates, fd2, b));
      }
    }
  }

  /** Allocation tenures the table does not rate, and allocation banks the
      table does not list, play no part in the result. */
  lemma OnlyRatedLegsMatter(alloc1: Allocation, alloc2: Allocation, rates: Table, price: Option<real>)
    requires alloc1.gold == alloc2.gold && alloc1.nifty == alloc2.nifty
    requires AgreeOnRated(rates, alloc1.fd, alloc2.fd)
    ensures CalculateReturns(alloc1, rates, price) == CalculateReturns(alloc2, rates, price)
  {
    FdReturnsReadsRatedLegs(rates, alloc1.fd, alloc2.fd);
  }

  /** Listing the banks, or a bank's tenures, in another order changes
      neither whether the FD loop completes nor the total it reaches. */
  lemma FdOrderIrrelevant(rates1: Table, rates2: Table, fd: Table)
    requires TableWellFormed(rates1) && TableWellFormed(rates2)
    requires SameContents(rates1, rates2)
    ensures FdReturns(rates1, fd).Ok? == FdReturns(rates2, fd).Ok?
    ensures FdReturns(rates1, fd).Ok? ==> FdReturns(rates1, fd).value == FdReturns(rates2, fd).value
  {
    forall b | b in rates2.order
      ensures Aborts(rates1, fd, b) == Aborts(rates2, fd, b)
      ensures BankTerm(rates1, fd)(b) == BankTerm(rates2, fd)(b)
    {
      var row1, row2 := rates1.entries[b], rates2.entries[b];
      if |row1.order| > 0 {
        assert row1.order[0] in row2.order;
      }
      if |row2.order| > 0 {
        assert row2.order[0] in row1.order;
      }
      if b in fd.entries {
        var amounts := fd.entries[b];
        SumReorder(row1.order, row2.order, LegTerm(row1, amounts));
        SumCongruent(row2.order, LegTerm(row1, amounts), LegTerm(row2, amounts));
      }
    }
    forall b | b in rates1.order
      ensures Aborts(rates1, fd, b) == Aborts(rates2, fd, b)
    {
      assert b in rates2.order;
    }
    SumReorder(rates1.order, rates2.order, BankTerm(rates1, fd));
    SumCongruent(rates2.order, BankTerm(rates1, fd), BankTerm(rates2, fd));
  }

  /** The same for the whole calculation: reordering the rate table can only
      change which missing bank an error names. */
  lemma CalculationOrderIrrelevant(alloc: Allocation, rates1: Table, rates2: Table, price: Option<real>)
    requires TableWellFormed(rates1) && TableWellFormed(rates2)
    requires SameContents(rates1, rates2)
    ensures CalculateReturns(alloc, rates1, price).Ok? == CalculateReturns(alloc, rates2, price).Ok?
    ensures CalculateReturns(alloc, rates1, price).Ok? ==>
      CalculateReturns(alloc, rates1, price) == CalculateReturns(alloc, rates2, price)
  {
    FdOrderIrrelevant(rates1, rates2, alloc.fd);
  }
}
