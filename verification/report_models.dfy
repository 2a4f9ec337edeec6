/**
 * The printable lists of itkufs/reports/models.py: a list has an account
 * column, an optional balance column (left out when its width is 0) and
 * user-defined columns, each with a relative width.
 */
module ReportModels {
  import opened Outcomes

  /** A `ListColumn`: its name and its relative width. */
  datatype Column = Column(name: string, width: nat)

  function Widths(cs: seq<Column>): (ws: seq<int>)
    ensures |ws| == |cs|
    ensures forall i :: 0 <= i < |cs| ==> ws[i] == cs[i].width
  {
    if cs == [] then [] else Widths(cs[..|cs| - 1]) + [cs[|cs| - 1].width]
  }

  /** A `List`; `columns` is its column set in display order, `group` the
      id of its group, `extraAccounts` the accounts it shows besides the
      members. */
  class List {
    var name: string
    var slug: string
    var accountWidth: nat
    var balanceWidth: nat
    var group: Option<nat>
    var columns: seq<Column>
    var extraAccounts: seq<nat>
    var saved: bool

    constructor (name: string, slug: string, accountWidth: nat, balanceWidth: nat, columns: seq<Column>)
      ensures this.name == name && this.slug == slug && this.columns == columns
      ensures this.accountWidth == accountWidth && this.balanceWidth == balanceWidth
      ensures group.None? && extraAccounts == [] && !saved
    {
      this.name := name;
      this.slug := slug;
      this.accountWidth := accountWidth;
      this.balanceWidth := balanceWidth;
      this.columns := columns;
      group := None;
      extraAccounts := [];
      saved := false;
    }

    /** `total_width`: the width of the account and balance columns plus
        the widths of all the other columns. */
    method TotalWidth() returns (sum: int)
      ensures sum == accountWidth + balanceWidth + Sum(Widths(columns))
      ensures sum >= accountWidth + balanceWidth
    {
      sum := accountWidth + balanceWidth;
      var i := 0;
      while i < |columns|
        invariant 0 <= i <= |columns|
        invariant sum == accountWidth + balanceWidth + Sum(Widths(columns[..i]))
      {
        assert columns[..i + 1] == columns[..i] + [columns[i]];
        sum := sum + columns[i].width;
        i := i + 1;
      }
      assert columns[..i] == columns;
      SumNonNegative(Widths(columns));
    }

    /** `total_column_count`: one column per list column, one for the
        account, and one for the balance unless its width is 0. */
    function TotalColumnCount(): (count: int)
      reads this
      ensures count >= |columns| + 1
      ensures count == |columns| + 1 <==> balanceWidth == 0
      ensures count <= |columns| + 2
    {
      var count := |columns| + 1;
      if balanceWidth != 0 then count + 1 else count
    }
  }
}
