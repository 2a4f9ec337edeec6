/**
 * The forms of itkufs/reports/forms.py: the transaction form of a printed
 * list (a grid of counts, one row per account and one column per priced
 * column) with the entries it generates, and the checks of the list and
 * column forms.
 *
 * `cleaned_data` is a map from field name to the cleaned value, where
 * `None` is Python's None (a blank optional integer field) and a missing
 * key a field that failed its own validation.
 */
module ReportForms {
  import opened Outcomes
  import opened Accounting
  import opened ReportModels

  type CleanedData = map<string, Option<int>>

  // ---------------------------------------------------------------------------
  // Field names: "entry-<column>" for a column's price, "entry-<column>-<account>"
  // for a cell of the grid

  function ColumnField(c: nat): string
  {
    "entry-" + NatToString(c)
  }

  function CellField(c: nat, a: nat): string
  {
    ColumnField(c) + "-" + NatToString(a)
  }

  /** Python's `s.split(sep)`. */
  function Split(s: string, sep: char): (parts: seq<string>)
    ensures |parts| >= 1
  {
    if s == [] then [[]]
    else
      var init := Split(s[..|s| - 1], sep);
      if s[|s| - 1] == sep then init + [[]]
      else init[..|init| - 1] + [init[|init| - 1] + [s[|s| - 1]]]
  }

  lemma JoinExtendLast(sep: char, parts: seq<string>, c: char)
    requires |parts| >= 1
    ensures Join(sep, parts[..|parts| - 1] + [parts[|parts| - 1] + [c]]) == Join(sep, parts) + [c]
  {
    var q := parts[..|parts| - 1] + [parts[|parts| - 1] + [c]];
    assert q[..|q| - 1] == parts[..|parts| - 1];
  }

  /** Joining the parts of a split gives the string back. */
  lemma {:induction false} JoinSplit(s: string, sep: char)
    ensures Join(sep, Split(s, sep)) == s
    decreases |s|
  {
    if s != [] {
      JoinSplit(s[..|s| - 1], sep);
      JoinSplitStep(s, sep);
    }
  }

  lemma JoinSplitStep(s: string, sep: char)
    requires s != [] && Join(sep, Split(s[..|s| - 1], sep)) == s[..|s| - 1]
    ensures Join(sep, Split(s, sep)) == s
  {
    if s[|s| - 1] == sep {
      JoinSplitSeparator(s, sep);
    } else {
      JoinSplitOther(s, sep);
    }
  }

  lemma JoinSplitSeparator(s: string, sep: char)
    requires s != [] && s[|s| - 1] == sep
    requires Join(sep, Split(s[..|s| - 1], sep)) == s[..|s| - 1]
    ensures Join(sep, Split(s, sep)) == s
  {
    var q := Split(s[..|s| - 1], sep) + [[]];
    assert q[..|q| - 1] == Split(s[..|s| - 1], sep);
    SnocLast(s);
  }

  lemma JoinSplitOther(s: string, sep: char)
    requires s != [] && s[|s| - 1] != sep
    requires Join(sep, Split(s[..|s| - 1], sep)) == s[..|s| - 1]
    ensures Join(sep, Split(s, sep)) == s
  {
    JoinExtendLast(sep, Split(s[..|s| - 1], sep), s[|s| - 1]);
    SnocLast(s);
  }

  lemma SnocLast(s: string)
    requires s != []
    ensures s[..|s| - 1] + [s[|s| - 1]] == s
  {
  }

  /** The last separator of `x + [sep] + y` splits off `y` as the last part. */
  lemma {:induction false} SplitLast(x: string, sep: char, y: string)
    requires sep !in y
    ensures Split(x + [sep] + y, sep) == Split(x, sep) + [y]
    decreases |y|
  {
    var s := x + [sep] + y;
    if y == [] {
      assert s[..|s| - 1] == x;
    } else {
      var y' := y[..|y| - 1];
      assert s[..|s| - 1] == x + [sep] + y';
      SplitLast(x, sep, y');
      assert y' + [y[|y| - 1]] == y;
    }
  }

  /** `"-".join(name.split("-")[:-1])`: the name without its last segment. */
  function DropLastSegment(name: string): string
  {
    var parts := Split(name, '-');
    Join('-', parts[..|parts| - 1])
  }

  /** The price of a cell is read from the field of its column. */
  lemma PriceFieldOfCell(c: nat, a: nat)
    ensures DropLastSegment(CellField(c, a)) == ColumnField(c)
  {
    assert '-' !in NatToString(a);
    SplitLast(ColumnField(c), '-', NatToString(a));
    assert Split(CellField(c, a), '-') == Split(ColumnField(c), '-') + [NatToString(a)];
    JoinSplit(ColumnField(c), '-');
  }

  // ---------------------------------------------------------------------------
  // ListTransactionForm.clean

  /** The cell fields of the grid, account by account, column by column. */
  function AccountCells(columns: seq<nat>, a: nat): (names: seq<string>)
    ensures |names| == |columns|
    ensures forall j :: 0 <= j < |columns| ==> names[j] == CellField(columns[j], a)
  {
    if columns == [] then [] else AccountCells(columns[..|columns| - 1], a) + [CellField(columns[|columns| - 1], a)]
  }

  function CellFields(columns: seq<nat>, accounts: seq<AccountRef>): seq<string>
  {
    if accounts == [] then []
    else CellFields(columns, accounts[..|accounts| - 1]) + AccountCells(columns, accounts[|accounts| - 1].id)
  }

  /** `cleaned_data.get(name, 0)`. */
  function Get(data: CleanedData, name: string): Option<int>
  {
    if name in data then data[name] else Some(0)
  }

  /** `cleaned_data.get(name, 0) or 0`: a blank cell counts as 0. */
  function CountOf(data: CleanedData, name: string): int
  {
    var v := Get(data, name);
    if v.Some? then v.value else 0
  }

  const NoEntryMessage := "Please fill in at least one account entry."

  /** `ListTransactionForm.clean` as written: the first blank cell met
      before a filled one compares None with 0, which raises a TypeError. */
  function CleanAsWritten(data: CleanedData, names: seq<string>): (r: Result<CleanedData, FormError>)
    ensures r.Ok? ==> r.value == data && exists i :: 0 <= i < |names| && CountOf(data, names[i]) > 0
    ensures r == Err(TypeError) <==>
      exists i :: 0 <= i < |names| && Get(data, names[i]).None? && forall j :: 0 <= j < i ==> CountOf(data, names[j]) <= 0
    ensures r.Err? && r.error != TypeError ==> r.error == ValidationError([NoEntryMessage])
  {
    if names == [] then Err(ValidationError([NoEntryMessage]))
    else
      var v := Get(data, names[0]);
      if v.None? then Err(TypeError)
      else if v.value > 0 then Ok(data)
      else
        var r := CleanAsWritten(data, names[1..]);
        assert forall i :: 0 < i < |names| ==> names[i] == names[1..][i - 1];
        r
  }

  /** `ListTransactionForm.clean` as intended: blank cells count as 0, as in
      `transaction_entries`, and the form is accepted iff some cell holds a
      positive count. */
  function Clean(data: CleanedData, names: seq<string>): (r: Result<CleanedData, FormError>)
    ensures r.Ok? <==> exists i :: 0 <= i < |names| && CountOf(data, names[i]) > 0
    ensures r.Ok? ==> r.value == data
    ensures r.Err? ==> r.error == ValidationError([NoEntryMessage])
  {
    if names == [] then Err(ValidationError([NoEntryMessage]))
    else if CountOf(data, names[0]) > 0 then Ok(data)
    else
      var r := Clean(data, names[1..]);
      assert forall i :: 0 < i < |names| ==> names[i] == names[1..][i - 1];
      r
  }

  /** A blank first cell followed by a filled one: the form as written
      raises a TypeError where the intended form is accepted. */
  lemma BlankCellCrashes(data: CleanedData, names: seq<string>)
    requires |names| >= 2 && names[0] in data && data[names[0]].None?
    requires CountOf(data, names[1]) > 0
    ensures CleanAsWritten(data, names) == Err(TypeError)
    ensures Clean(data, names) == Ok(data)
  {
  }

  /** Where no cell is blank the two agree. */
  lemma {:induction false} CleanAgrees(data: CleanedData, names: seq<string>)
    requires forall i :: 0 <= i < |names| ==> Get(data, names[i]).Some?
    ensures CleanAsWritten(data, names) == Clean(data, names)
    decreases |names|
  {
    if names != [] {
      CleanAgrees(data, names[1..]);
    }
  }

  // ---------------------------------------------------------------------------
  // ListTransactionForm.transaction_entries

  /** Every column's price field holds an integer, as it does in a valid form. */
  ghost predicate Priced(data: CleanedData, columns: seq<nat>)
  {
    forall c :: c in columns ==> ColumnField(c) in data && data[ColumnField(c)].Some?
  }

  function Price(data: CleanedData, c: nat): int
    requires ColumnField(c) in data && data[ColumnField(c)].Some?
  {
    data[ColumnField(c)].value
  }

  /** What an account is charged: its count times the column's price, summed over the columns. */
  function Amount(data: CleanedData, columns: seq<nat>, a: nat): int
    requires Priced(data, columns)
  {
    if columns == [] then 0
    else
      var c := columns[|columns| - 1];
      Amount(data, columns[..|columns| - 1], a) + CountOf(data, CellField(c, a)) * Price(data, c)
  }

  /** One debit entry per account charged a positive amount, in account order. */
  function DebitEntries(data: CleanedData, columns: seq<nat>, accounts: seq<AccountRef>): seq<Entry>
    requires Priced(data, columns)
  {
    if accounts == [] then []
    else
      var a := accounts[|accounts| - 1];
      var amount := Amount(data, columns, a.id);
      DebitEntries(data, columns, accounts[..|accounts| - 1]) + (if amount > 0 then [Entry(a, amount, 0)] else [])
  }

  /** The sum of the positive amounts. */
  function ChargedTotal(data: CleanedData, columns: seq<nat>, accounts: seq<AccountRef>): int
    requires Priced(data, columns)
  {
    if accounts == [] then 0
    else
      var amount := Amount(data, columns, accounts[|accounts| - 1].id);
      ChargedTotal(data, columns, accounts[..|accounts| - 1]) + (if amount > 0 then amount else 0)
  }

  /** The entries of a valid form: the debit entries, then one credit entry
      for the total to the credit account when the total is positive. */
  function ListEntries(data: CleanedData, columns: seq<nat>, accounts: seq<AccountRef>, creditAccount: AccountRef): seq<Entry>
    requires Priced(data, columns)
  {
    var total := ChargedTotal(data, columns, accounts);
    DebitEntries(data, columns, accounts) + (if total > 0 then [Entry(creditAccount, 0, total)] else [])
  }

  /** The inner loop of `transaction_entries`: one account's count in each
      column times the price that the cell's field name leads to. */
  method AccountAmount(data: CleanedData, columns: seq<nat>, a: nat) returns (amount: int)
    requires Priced(data, columns)
    ensures amount == Amount(data, columns, a)
  {
    amount := 0;
    var j := 0;
    while j < |columns|
      invariant 0 <= j <= |columns|
      invariant amount == Amount(data, columns[..j], a)
    {
      var name := CellField(columns[j], a);
      var count := CountOf(data, name);
      PriceFieldOfCell(columns[j], a);
      var price := data[DropLastSegment(name)].value;
      assert columns[..j + 1][..j] == columns[..j];
      amount := amount + count * price;
      j := j + 1;
    }
    assert columns[..j] == columns;
  }

  /** `transaction_entries`: None for an invalid form, otherwise the entries.
      `fieldsValid` tells whether every field passed its own validation; the
      form is valid when they did and `clean` accepts it. */
  method TransactionEntries(data: CleanedData, columns: seq<nat>, accounts: seq<AccountRef>,
                            creditAccount: AccountRef, fieldsValid: bool)
    returns (r: Option<seq<Entry>>)
    requires fieldsValid ==> Priced(data, columns)
    ensures r.None? <==> !fieldsValid || Clean(data, CellFields(columns, accounts)).Err?
    ensures r.Some? ==> r.value == ListEntries(data, columns, accounts, creditAccount)
  {
    if !fieldsValid || Clean(data, CellFields(columns, accounts)).Err? {
      return None;
    }
    var entries := [];
    var total := 0;
    var i := 0;
    while i < |accounts|
      invariant 0 <= i <= |accounts|
      invariant entries == DebitEntries(data, columns, accounts[..i])
      invariant total == ChargedTotal(data, columns, accounts[..i])
    {
      var a := accounts[i];
      var amount := AccountAmount(data, columns, a.id);
      assert accounts[..i + 1][..i] == accounts[..i];
      if amount > 0 {
        total := total + amount;
        entries := entries + [Entry(a, amount, 0)];
      }
      i := i + 1;
    }
    assert accounts[..i] == accounts;
    if total > 0 {
      entries := entries + [Entry(creditAccount, 0, total)];
    }
    r := Some(entries);
  }

  lemma TotalsAppend(es: seq<Entry>, e: Entry)
    ensures TotalDebit(es + [e]) == TotalDebit(es) + e.debit
    ensures TotalCredit(es + [e]) == TotalCredit(es) + e.credit
  {
    assert (es + [e])[..|es|] == es;
  }

  lemma {:induction false} DebitEntriesTotals(data: CleanedData, columns: seq<nat>, accounts: seq<AccountRef>)
    requires Priced(data, columns)
    ensures TotalDebit(DebitEntries(data, columns, accounts)) == ChargedTotal(data, columns, accounts)
    ensures TotalCredit(DebitEntries(data, columns, accounts)) == 0
    ensures ChargedTotal(data, columns, accounts) >= 0
    ensures forall e :: e in DebitEntries(data, columns, accounts) ==> e.debit > 0 && e.credit == 0
    decreases |accounts|
  {
    if accounts != [] {
      var init := accounts[..|accounts| - 1];
      var a := accounts[|accounts| - 1];
      DebitEntriesTotals(data, columns, init);
      var amount := Amount(data, columns, a.id);
      if amount > 0 {
        TotalsAppend(DebitEntries(data, columns, init), Entry(a, amount, 0));
      } else {
        assert DebitEntries(data, columns, accounts) == DebitEntries(data, columns, init);
      }
    }
  }

  /** The generated entries always balance, and each of them has exactly
      one positive side, so `TransactionEntry.save` accepts every one of
      them on a new transaction. */
  lemma ListEntriesBalance(data: CleanedData, columns: seq<nat>, accounts: seq<AccountRef>, creditAccount: AccountRef)
    requires Priced(data, columns)
    ensures TotalDebit(ListEntries(data, columns, accounts, creditAccount))
         == TotalCredit(ListEntries(data, columns, accounts, creditAccount))
    ensures forall e :: e in ListEntries(data, columns, accounts, creditAccount) ==> EntryError(Undefined, e) == None
  {
    DebitEntriesTotals(data, columns, accounts);
    var total := ChargedTotal(data, columns, accounts);
    if total > 0 {
      TotalsAppend(DebitEntries(data, columns, accounts), Entry(creditAccount, 0, total));
    } else {
      assert ListEntries(data, columns, accounts, creditAccount) == DebitEntries(data, columns, accounts);
    }
  }

  // ---------------------------------------------------------------------------
  // ListForm and ColumnForm

  /** `cleaned_data.get(field, 0)` for a field that is absent or an integer. */
  function WidthOrZero(w: Option<int>): int
  {
    if w.Some? then w.value else 0
  }

  /** `ListForm.clean`: at least one of the account and short-name columns
      must have a width; the message names both fields by their labels. */
  function ListClean(accountWidth: Option<int>, shortNameWidth: Option<int>, accountLabel: string, shortNameLabel: string)
    : (err: Option<FormError>)
    ensures err.Some? <==> WidthOrZero(accountWidth) == 0 && WidthOrZero(shortNameWidth) == 0
    ensures err.Some? ==> err.value.ValidationError? && |err.value.messages| == 1
  {
    if WidthOrZero(accountWidth) == 0 && WidthOrZero(shortNameWidth) == 0 then
      Some(ValidationError(["\"" + accountLabel + "\" or \"" + shortNameLabel + "\" must be greater than zero"]))
    else None
  }

  const NameMissing := "Name missing"
  const WidthMissing := "Width missing"

  /** `ColumnForm.clean`. `width` is absent (outer None) when the field
      failed validation, and Python's None (inner None) when left blank;
      `name` is absent when it failed validation. An absent field is read
      with `cleaned_data[...]`, which raises a KeyError. */
  function ColumnClean(width: Option<Option<int>>, name: Option<string>): (err: Option<FormError>)
    ensures err.None? <==> width.Some? && name.Some? && (Truthy(width.value) <==> name.value != [])
    ensures err == Some(ValidationError([NameMissing])) <==> width.Some? && Truthy(width.value) && name == Some([])
    ensures err == Some(ValidationError([WidthMissing])) <==>
      width.Some? && !Truthy(width.value) && name.Some? && name.value != []
  {
    if width.None? then Some(KeyError("width"))
    else if Truthy(width.value) then
      if name.None? then Some(KeyError("name"))
      else if name.value == [] then Some(ValidationError([NameMissing]))
      else None
    else if name.None? then Some(KeyError("name"))
    else if name.value != [] then Some(ValidationError([WidthMissing]))
    else None
  }

  /** Python truthiness of an optional integer. */
  predicate Truthy(v: Option<int>)
  {
    v.Some? && v.value != 0
  }

  /** `ListForm.save` on the list the form built: an empty slug is derived
      from the name, the group is set when one is given, and only with
      `commit` is the list saved and given its extra accounts. */
  method SaveList(list: List, group: Option<nat>, commit: bool, extraAccounts: seq<nat>, slugify: string -> string)
    modifies list
    ensures list.slug == if old(list.slug) == [] then slugify(old(list.name)) else old(list.slug)
    ensures list.group == if group.Some? then group else old(list.group)
    ensures list.saved == (old(list.saved) || commit)
    ensures list.extraAccounts == if commit then extraAccounts else old(list.extraAccounts)
    ensures list.name == old(list.name) && list.columns == old(list.columns)
    ensures list.accountWidth == old(list.accountWidth) && list.balanceWidth == old(list.balanceWidth)
  {
    if list.slug == [] {
      list.slug := slugify(list.name);
    }
    if group.Some? {
      list.group := group;
    }
    if commit {
      list.saved := true;
      list.extraAccounts := extraAccounts;
    }
  }
}
