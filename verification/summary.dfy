/** The slice sizes `display_investment_allocation` hands to the pie chart:
    gold, every FD amount summed, Nifty 50. The rate table plays no part. */
module Summary {
  import opened PyDict
  import opened Sums
  import opened Portfolio
  import Returns

  /** The chart labels, in slice order. */
  const Labels: seq<string> := ["Gold", "Fixed Deposits", "Nifty 50"]

  /** `sum(amounts.values())` for one bank. */
  function RowTerm(row: Row): Tenure -> real {
    t => if t in row.entries then row.entries[t] else 0.0
  }

  function RowTotal(row: Row): real {
    Sum(row.order, RowTerm(row))
  }

  function TableTerm(fd: Table): Bank -> real {
    b => if b in fd.entries then RowTotal(fd.entries[b]) else 0.0
  }

  /** `fd_total`: every amount under every bank and tenure. It is
      non-negative when the amounts are. */
  function FdTotal(fd: Table): (r: real)
    ensures NonnegativeAmounts(fd) ==> 0.0 <= r
  {
    TableSumNonnegative(fd);
    Sum(fd.order, TableTerm(fd))
  }

  /** Non-negative amounts give every bank a non-negative row total, and the
      table a non-negative sum. */
  lemma TableSumNonnegative(fd: Table)
    ensures NonnegativeAmounts(fd) ==> forall b :: 0.0 <= TableTerm(fd)(b)
    ensures NonnegativeAmounts(fd) ==> 0.0 <= Sum(fd.order, TableTerm(fd))
  {
    if NonnegativeAmounts(fd) {
      forall b | b in fd.entries
        ensures 0.0 <= TableTerm(fd)(b)
      {
        SumNonnegative(fd.entries[b].order, RowTerm(fd.entries[b]));
      }
      SumNonnegative(fd.order, TableTerm(fd));
    }
  }

  /** `sizes`: one slice per label, gold first and Nifty 50 last; all three
      are non-negative when the amounts are. */
  function Sizes(alloc: Allocation): (r: seq<real>)
    ensures |r| == |Labels|
    ensures r[0] == alloc.gold && r[2] == alloc.nifty
    ensures r[1] == FdTotal(alloc.fd)
    ensures 0.0 <= alloc.gold && 0.0 <= alloc.nifty && NonnegativeAmounts(alloc.fd) ==>
      forall i :: 0 <= i < |r| ==> 0.0 <= r[i]
  {
    [alloc.gold, FdTotal(alloc.fd), alloc.nifty]
  }

  /** The rate table rates exactly the banks and tenures the allocation
      holds. */
  predicate AllLegsRated(rates: Table, fd: Table) {
    && rates.entries.Keys == fd.entries.Keys
    && forall b :: b in fd.entries ==> rates.entries[b].entries.Keys == fd.entries[b].entries.Keys
  }

  /** An all-zero allocation is summarised as three zero slices. */
  lemma {:induction false} ZeroAllocation(alloc: Allocation)
    requires alloc.gold == 0.0 && alloc.nifty == 0.0
    requires forall b, t :: b in alloc.fd.entries && t in alloc.fd.entries[b].entries ==>
      alloc.fd.entries[b].entries[t] == 0.0
    ensures Sizes(alloc) == [0.0, 0.0, 0.0]
  {
    var fd := alloc.fd;
    forall b | b in fd.order
      ensures TableTerm(fd)(b) == 0.0
    {
      if b in fd.entries {
        SumZero(fd.entries[b].order, RowTerm(fd.entries[b]));
      }
    }
    SumZero(fd.order, TableTerm(fd));
  }

  /** `fd_total`, and with it the FD slice, does not depend on the order
      banks and tenures were entered in. */
  lemma {:induction false} FdTotalOrderIrrelevant(fd1: Table, fd2: Table)
    requires TableWellFormed(fd1) && TableWellFormed(fd2)
    requires SameContents(fd1, fd2)
    ensures FdTotal(fd1) == FdTotal(fd2)
  {
    forall b | b in fd2.order
      ensures TableTerm(fd1)(b) == TableTerm(fd2)(b)
    {
      var row1, row2 := fd1.entries[b], fd2.entries[b];
      SumReorder(row1.order, row2.order, RowTerm(row1));
      SumCongruent(row2.order, RowTerm(row1), RowTerm(row2));
    }
    SumReorder(fd1.order, fd2.order, TableTerm(fd1));
    SumCongruent(fd2.order, TableTerm(fd1), TableTerm(fd2));
  }

  /** With non-negative amounts the FD slice holds at least the principal the
      return calculation grows: that calculation only sees the rated legs,
      the chart sees every leg. */
  lemma {:induction false} FdSliceCoversMatchedPrincipal(rates: Table, fd: Table)
    requires TableWellFormed(rates) && TableWellFormed(fd)
    requires NonnegativeAmounts(fd)
    ensures Returns.MatchedPrincipal(rates, fd) <= FdTotal(fd)
  {
    TableSumNonnegative(fd);
    forall b | b in rates.order
      ensures Returns.PrincipalTerm(rates, fd)(b) <= if b in fd.order then TableTerm(fd)(b) else 0.0
    {
      if b in fd.entries {
        var row, amounts := rates.entries[b], fd.entries[b];
        forall t | t in amounts.order
          ensures 0.0 <= RowTerm(amounts)(t)
        {
        }
        forall t | t in row.order
          ensures Returns.PrincipalLegTerm(row, amounts)(t) <= if t in amounts.order then RowTerm(amounts)(t) else 0.0
        {
        }
        SumDominated(row.order, amounts.order, Returns.PrincipalLegTerm(row, amounts), RowTerm(amounts));
      }
    }
    SumDominated(rates.order, fd.order, Returns.PrincipalTerm(rates, fd), TableTerm(fd));
  }

  /** When every leg of the allocation is rated, the chart's FD slice is
      exactly the principal the return calculation grows. */
  lemma {:induction false} FdTotalIsMatchedPrincipal(rates: Table, fd: Table)
    requires TableWellFormed(rates) && TableWellFormed(fd)
    requires AllLegsRated(rates, fd)
    ensures Returns.MatchedPrincipal(rates, fd) == FdTotal(fd)
  {
    forall b | b in fd.order
      ensures Returns.PrincipalTerm(rates, fd)(b) == TableTerm(fd)(b)
    {
      var row, amounts := rates.entries[b], fd.entries[b];
      SumReorder(row.order, amounts.order, Returns.PrincipalLegTerm(row, amounts));
      SumCongruent(amounts.order, Returns.PrincipalLegTerm(row, amounts), RowTerm(amounts));
    }
    SumReorder(rates.order, fd.order, Returns.PrincipalTerm(rates, fd));
    SumCongruent(fd.order, Returns.PrincipalTerm(rates, fd), TableTerm(fd));
  }
}
