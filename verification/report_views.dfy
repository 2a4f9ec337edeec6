/**
 * The arithmetic of the balance sheet and the income statement of
 * itkufs/reports/views.py. The normal balances of the group's accounts,
 * which the views read from the database, are inputs here.
 */
module ReportViews {
  import opened Outcomes

  /** A line of a report: an account (or an aggregate) and its balance. */
  datatype Row = Row(name: string, balance: int)

  function Balances(rows: seq<Row>): (bs: seq<int>)
    ensures |bs| == |rows|
  {
    if rows == [] then [] else Balances(rows[..|rows| - 1]) + [rows[|rows| - 1].balance]
  }

  /** The total of the balances of some rows. */
  function Total(rows: seq<Row>): int
  {
    Sum(Balances(rows))
  }

  lemma TotalAppend(rows: seq<Row>, r: Row)
    ensures Total(rows + [r]) == Total(rows) + r.balance
  {
    assert (rows + [r])[..|rows|] == rows;
    SumAppend(Balances(rows), [r.balance]);
  }

  const MemberAccountsLabel := "Member accounts"
  const NetIncomeLabel := "Current year's net income"

  /** The `accounts` structure the balance sheet is rendered from. */
  datatype BalanceSheet = BalanceSheet(
    assets: seq<Row>, asSum: int,
    liabilities: seq<Row>, liSum: int,
    equities: seq<Row>, eqSum: int,
    liEqSum: int)

  /** Adds the balance of every row to `sum`, appending each row to `rows`. */
  method AddRows(rows0: seq<Row>, sum0: int, more: seq<Row>) returns (rows: seq<Row>, sum: int)
    ensures rows == rows0 + more
    ensures sum == sum0 + Total(more)
  {
    rows, sum := rows0, sum0;
    var i := 0;
    while i < |more|
      invariant 0 <= i <= |more|
      invariant rows == rows0 + more[..i]
      invariant sum == sum0 + Total(more[..i])
    {
      TotalAppend(more[..i], more[i]);
      assert more[..i + 1] == more[..i] + [more[i]];
      rows := rows + [more[i]];
      sum := sum + more[i].balance;
      i := i + 1;
    }
    assert more[..i] == more;
  }

  /** `balance`: asset rows; group liability rows followed by one row for
      all member accounts together; equity rows followed by the current
      year's net income, which closes the sheet. */
  method Balance(assets: seq<Row>, groupLiabilities: seq<Row>, memberLiabilities: seq<Row>, equities: seq<Row>)
    returns (sheet: BalanceSheet)
    ensures sheet.assets == assets && sheet.asSum == Total(assets)
    ensures sheet.liabilities == groupLiabilities + [Row(MemberAccountsLabel, Total(memberLiabilities))]
    ensures sheet.liSum == Total(sheet.liabilities)
    ensures sheet.equities ==
      equities + [Row(NetIncomeLabel, Total(assets) - (Total(sheet.liabilities) + Total(equities)))]
    ensures sheet.eqSum == Total(sheet.equities)
    ensures sheet.liEqSum == sheet.liSum + sheet.eqSum
    ensures sheet.liEqSum == sheet.asSum
  {
    var asRows, asSum := AddRows([], 0, assets);
    var liRows, liSum := AddRows([], 0, groupLiabilities);
    var memberSum := 0;
    var i := 0;
    while i < |memberLiabilities|
      invariant 0 <= i <= |memberLiabilities|
      invariant memberSum == Total(memberLiabilities[..i])
    {
      TotalAppend(memberLiabilities[..i], memberLiabilities[i]);
      assert memberLiabilities[..i + 1] == memberLiabilities[..i] + [memberLiabilities[i]];
      memberSum := memberSum + memberLiabilities[i].balance;
      i := i + 1;
    }
    assert memberLiabilities[..i] == memberLiabilities;
    var memberRow := Row(MemberAccountsLabel, memberSum);
    TotalAppend(liRows, memberRow);
    liRows := liRows + [memberRow];
    liSum := liSum + memberSum;
    var eqRows, eqSum := AddRows([], 0, equities);
    var liEqSum := liSum + eqSum;
    var netIncome := asSum - liEqSum;
    var netRow := Row(NetIncomeLabel, netIncome);
    TotalAppend(eqRows, netRow);
    eqRows := eqRows + [netRow];
    eqSum := eqSum + netIncome;
    liEqSum := liEqSum + netIncome;
    sheet := BalanceSheet(asRows, asSum, liRows, liSum, eqRows, eqSum, liEqSum);
  }

  /** The `accounts` structure the income statement is rendered from. */
  datatype IncomeStatement = IncomeStatement(incomes: seq<Row>, inSum: int, expenses: seq<Row>, exSum: int, inExDiff: int)

  /** `income`: the income and expense rows with their totals and the net
      income, their difference. */
  method Income(incomes: seq<Row>, expenses: seq<Row>) returns (st: IncomeStatement)
    ensures st.incomes == incomes && st.inSum == Total(incomes)
    ensures st.expenses == expenses && st.exSum == Total(expenses)
    ensures st.inExDiff == Total(incomes) - Total(expenses)
  {
    var inRows, inSum := AddRows([], 0, incomes);
    var exRows, exSum := AddRows([], 0, expenses);
    st := IncomeStatement(inRows, inSum, exRows, exSum, inSum - exSum);
  }
}
