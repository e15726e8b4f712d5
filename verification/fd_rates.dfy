/** `fetch_fd_interest_rates`: one bank, SBI, paying 7.5% on each of three
    tenures; and what the calculator makes of the allocation the form builds
    against that table. */
module FdRates {
  import opened PyDict
  import opened Sums
  import opened Portfolio
  import opened Returns
  import Summary

  const Sbi: Bank := "SBI"
  const OneYear: Tenure := "1 Year"
  const TwoYears: Tenure := "2 Years"
  const ThreeYears: Tenure := "3 Years"

  /** SBI's rate row: 7.5% for every tenure. */
  const SbiRates: Row := Dict([OneYear, TwoYears, ThreeYears],
                                 map[OneYear := 7.5, TwoYears := 7.5, ThreeYears := 7.5])

  /** The rate table the page uses. */
  const FdInterestRates: Table :=
    var entries: map<Bank, Row> := map[Sbi := SbiRates];
    Dict([Sbi], entries)

  /** The constant table is a well-formed dict of well-formed rows. */
  lemma RateTableWellFormed()
    ensures TableWellFormed(FdInterestRates)
  {
  }

  /** The amount an allocation row holds for a tenure, 0 when it has none. */
  function AmountOr0(amounts: Row, t: Tenure): real {
    if t in amounts.entries then amounts.entries[t] else 0.0
  }

  /** Against the constant table, the FD loop completes exactly when the
      allocation has an SBI row, and then grows the SBI amounts of the three
      rated tenures by 7.5%; any other allocation tenure or bank is ignored. */
  lemma SbiReturns(fd: Table)
    ensures FdReturns(FdInterestRates, fd).Ok? <==> Sbi in fd.entries
    ensures Sbi !in fd.entries ==> FdReturns(FdInterestRates, fd) == Err(MissingBank(Sbi))
    ensures Sbi in fd.entries ==>
      FdReturns(FdInterestRates, fd).value == 1.075 * (
        AmountOr0(fd.entries[Sbi], OneYear)
        + AmountOr0(fd.entries[Sbi], TwoYears)
        + AmountOr0(fd.entries[Sbi], ThreeYears))
  {
    assert FdInterestRates.order == [Sbi];
    assert Aborts(FdInterestRates, fd, Sbi) <==> Sbi !in fd.entries;
    if Sbi in fd.entries {
      var amounts := fd.entries[Sbi];
      var leg := LegTerm(SbiRates, amounts);
      var tenures := [OneYear, TwoYears, ThreeYears];
      assert tenures[..2] == [OneYear, TwoYears];
      assert tenures[..2][..1] == [OneYear];
      SumSingle(OneYear, leg);
      assert Sum(tenures, leg) == leg(OneYear) + leg(TwoYears) + leg(ThreeYears);
      SumSingle(Sbi, BankTerm(FdInterestRates, fd));
    }
  }

  /** The allocation the form builds: one SBI row with the three tenures. */
  function FormAllocation(gold: real, oneYear: real, twoYears: real, threeYears: real, nifty: real): Allocation {
    var sbi: Row := Dict([OneYear, TwoYears, ThreeYears],
                            map[OneYear := oneYear, TwoYears := twoYears, ThreeYears := threeYears]);
    var entries: map<Bank, Row> := map[Sbi := sbi];
    Allocation(gold, Dict([Sbi], entries), nifty)
  }

  /** End to end: for any non-zero gold price the form's allocation against
      the constant table yields these totals. */
  lemma FormTotals(gold: real, oneYear: real, twoYears: real, threeYears: real, nifty: real, price: real)
    requires price != 0.0
    ensures CalculateReturns(FormAllocation(gold, oneYear, twoYears, threeYears, nifty), FdInterestRates, Some(price))
      == Ok(Totals(gold + 1.075 * (oneYear + twoYears + threeYears) + nifty,
                   gold * 1.05 + 1.075 * (oneYear + twoYears + threeYears) + nifty * 1.10))
  {
    var alloc := FormAllocation(gold, oneYear, twoYears, threeYears, nifty);
    SbiReturns(alloc.fd);
  }

  /** The worked example: gold 1000, SBI "1 Year" 2000 and nothing on the other
      tenures, Nifty 50 1500, at a gold price of 6000. */
  lemma WorkedExample()
    ensures CalculateReturns(FormAllocation(1000.0, 2000.0, 0.0, 0.0, 1500.0), FdInterestRates, Some(6000.0))
      == Ok(Totals(4650.0, 4850.0))
  {
    FormTotals(1000.0, 2000.0, 0.0, 0.0, 1500.0, 6000.0);
  }

  /** The form's allocation is a well-formed dict of well-formed rows, and the
      constant table rates exactly its banks and tenures. */
  lemma FormAllocationRated(gold: real, oneYear: real, twoYears: real, threeYears: real, nifty: real)
    ensures TableWellFormed(FormAllocation(gold, oneYear, twoYears, threeYears, nifty).fd)
    ensures Summary.AllLegsRated(FdInterestRates, FormAllocation(gold, oneYear, twoYears, threeYears, nifty).fd)
  {
  }

  /** The principal the calculation grows against the constant table: the
      allocation's SBI amounts of the three rated tenures. */
  lemma SbiPrincipal(fd: Table)
    requires Sbi in fd.entries
    ensures MatchedPrincipal(FdInterestRates, fd) ==
      AmountOr0(fd.entries[Sbi], OneYear)
      + AmountOr0(fd.entries[Sbi], TwoYears)
      + AmountOr0(fd.entries[Sbi], ThreeYears)
  {
    var leg := PrincipalLegTerm(SbiRates, fd.entries[Sbi]);
    var tenures := [OneYear, TwoYears, ThreeYears];
    assert tenures[..2] == [OneYear, TwoYears];
    assert tenures[..2][..1] == [OneYear];
    SumSingle(OneYear, leg);
    assert Sum(tenures, leg) == leg(OneYear) + leg(TwoYears) + leg(ThreeYears);
    assert FdInterestRates.order == [Sbi];
    SumSingle(Sbi, PrincipalTerm(FdInterestRates, fd));
  }

  /** For an allocation that holds exactly the legs the constant table rates,
      the chart's FD slice is the principal the return calculation grows, and
      the FD return is that slice grown by 7.5%. */
  lemma RatedSliceGrows(fd: Table)
    requires TableWellFormed(fd)
    requires Summary.AllLegsRated(FdInterestRates, fd)
    ensures Summary.FdTotal(fd) == MatchedPrincipal(FdInterestRates, fd)
    ensures FdReturns(FdInterestRates, fd).Ok?
    ensures FdReturns(FdInterestRates, fd).value == 1.075 * Summary.FdTotal(fd)
  {
    RateTableWellFormed();
    Summary.FdTotalIsMatchedPrincipal(FdInterestRates, fd);
    assert Sbi in fd.entries;
    SbiPrincipal(fd);
    SbiReturns(fd);
    var principal := Summary.FdTotal(fd);
    var r := FdReturns(FdInterestRates, fd);
    assert r.Ok? && r.value == 1.075 * principal;
  }

  /** The form offers exactly the rated tenures, so its FD slice grows by
      7.5%. */
  lemma FormSliceGrows(gold: real, oneYear: real, twoYears: real, threeYears: real, nifty: real)
    ensures FdReturns(FdInterestRates, FormAllocation(gold, oneYear, twoYears, threeYears, nifty).fd).Ok?
    ensures FdReturns(FdInterestRates, FormAllocation(gold, oneYear, twoYears, threeYears, nifty).fd).value
      == 1.075 * Summary.FdTotal(FormAllocation(gold, oneYear, twoYears, threeYears, nifty).fd)
  {
    FormAllocationRated(gold, oneYear, twoYears, threeYears, nifty);
    RatedSliceGrows(FormAllocation(gold, oneYear, twoYears, threeYears, nifty).fd);
  }
}
