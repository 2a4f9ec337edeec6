# uFS bookkeeping core in Dafny

uFS is a Django application for double-entry bookkeeping in student
organisations. Each group keeps accounts. Members pay into and out of their
own accounts through transactions. A transaction moves from new to
registered, then payed, then received, and can be rejected while it is only
registered. Its entries must balance, with debits equal to credits.

This project models the parts of the application that decide things:

- the transaction life cycle and its validation rules (`Accounting`);
- the account balance, warning and block rules, in both account models
  (`AccountingAccounts` and `CommonModels`);
- the MOD11 check of Norwegian bank account numbers (`AccountNumber`);
- the ARK callsign sort (`Callsign`);
- the report arithmetic: balance sheet, income statement, list widths, and
  the entries generated from a count × price grid (`ReportViews`,
  `ReportModels`, `ReportForms`);
- the form validators (`ReportForms`, `Billing`, `CommonForms`, `Widgets`);
- bill editability (`Billing`);
- the view access decorators (`Decorators`);
- the template tag that hides other members' entries (`EntryFilter`).

Conventions of the model:

- Amounts are integer cents.
- Python `None` is `Option.None`, and an exception is `Result.Err`.
- Accounts, users and groups are numeric ids.
- Code that changes state in place is a class with `modifies` clauses. Each
  of its methods is proved equal to a pure step function, and the properties
  are proved about that function. Examples: `Accounting.Transaction` against
  `RegisterStep`, `PayStep`, …; `Widgets.Render` against `Lines`/`Texts`;
  `EntryFilter.FilterEntries` against `Hidden`.
- The functions these modules share live in `Outcomes`: Option/Result,
  integer sums, `str.strip()` blankness, `str(n)` and `sep.join`.

## Model

| member | source | states |
|---|---|---|
| `AccountNumber.VerifyAccountNumber` | itkufs/common/utils.py:6-21 | the digit-by-weight loop returns exactly the verdict `Verdict` defines: strip the separators; `False` unless 11 characters remain; an error if one of the first ten characters is not a digit; otherwise the check-digit comparison |
| `AccountNumber.StripSeparators` | itkufs/common/utils.py:12 | no space, dot or dash is left, and the result is no longer than the input |
| `AccountNumber.SeparatorIgnored` | itkufs/common/utils.py:12 | inserting a separator anywhere leaves the verdict unchanged |
| `AccountNumber.VerdictOfStripped` | itkufs/common/utils.py:12 | a number and its stripped form get the same verdict |
| `AccountNumber.WrongLengthRejected` | itkufs/common/utils.py:13-14 | a number that is not 11 characters long after stripping is rejected with `False` |
| `AccountNumber.NonDigitPrefixRaises` | itkufs/common/utils.py:17-18 | an 11-character number with a non-digit among its first ten characters raises instead of returning `False` |
| `AccountNumber.CheckDigitRule` | itkufs/common/utils.py:19-21 | a check digit is accepted iff it is the single character `str(11 - r)`, or `r` is 0 and the digit is '0', where `r` is the weighted sum mod 11 |
| `AccountNumber.ElevenDigitVerdict` | itkufs/common/utils.py:16-21 | for eleven digits, the verdict is the check-digit rule applied to the weighted sum of the first ten |
| `AccountNumber.RemainderOneRejectsAll` | itkufs/common/utils.py:19-21 | when the weighted sum mod 11 is 1, no check digit is accepted |
| `AccountNumber.CheckDigitUnique` | itkufs/common/utils.py:19-21 | a ten-digit prefix accepts at most one check digit |
| `AccountNumber.CheckDigitExists` | itkufs/common/utils.py:19-21 | a ten-digit prefix whose remainder is not 1 accepts the check digit `(11 - r) % 11` |
| `AccountNumber.DigitNumberVerdict` | itkufs/common/utils.py:16-21 | a prefix of ten digits followed by a digit is accepted iff that digit is the check digit |
| `AccountNumber.TestPrefixCrossSum` | itkufs/common/utils.py:16-18 | the weighted sum of 1234567890 is 195 |
| `AccountNumber.TestVectorBare` | itkufs/common/tests/test_utils.py:7-30 | 1234567890 followed by a digit is accepted iff the digit is 3 |
| `AccountNumber.TestVectorSpaced` | itkufs/common/tests/test_utils.py:9 | the spaced form "1234 56 78903" is accepted |
| `AccountNumber.PaddingIgnored` | itkufs/common/utils.py:7 | a space before and after the number does not change the verdict |
| `AccountNumber.TestVectorDashed` | itkufs/common/tests/test_utils.py:11 | the dashed form "1234-56-78903" is accepted |
| `AccountNumber.TestVectorPadded` | itkufs/common/tests/test_utils.py:15 | the padded, dashed form " 1234-56-78903 " is accepted |
| `AccountNumber.TestVectorShort` | itkufs/common/tests/test_utils.py:17-19 | the ten- and nine-digit numbers are rejected, not raised on |
| `AccountNumber.TestVectorLetter` | itkufs/common/tests/test_utils.py:37-38 | "1234a5678903" is twelve characters long, so it is rejected before any digit is parsed |
| `AccountNumber.CheckChar` | itkufs/common/utils.py:19-21 | the check character the rule asks for is a digit |
| `Callsign.IsCallsign` | itkufs/common/utils.py:3 | the hand-written test holds iff the string matches `^[A-Z]+[0-9][A-Z0-9]*[A-Z]$`, stated as a split into letters, a digit, letters or digits, and a final letter |
| `Callsign.ShapeIffPattern` | itkufs/common/utils.py:3 | the character-class shape and the regular expression accept the same strings |
| `Callsign.CallsignIndex` | itkufs/common/utils.py:36-50 | the index is 1 for callsigns starting "LA", 2 for "LB", 3 for other callsigns, and 4 otherwise, including an empty or missing short name |
| `Callsign.CallsignIndexExamples` | itkufs/common/utils.py:36-50 | concrete short names get the indices 1, 2, 3 and 4 |
| `Callsign.CallsignSorted` | itkufs/common/utils.py:24-33 | the sorted list is a permutation of the input |
| `Callsign.CallsignSortedOrdered` | itkufs/common/utils.py:33 | the sorted list is ordered by (index, name) |
| `Callsign.CallsignSortedStable` | itkufs/common/utils.py:33 | accounts with equal keys keep their input order, as Python's `sorted` does |
| `Accounting.StatusHierarchy` | itkufs/accounting/models.py:583-595 | payed implies registered and received implies payed; rejected is none of the three |
| `Accounting.CheckEntries` | itkufs/accounting/models.py:484-505 | the loop over the entries raises exactly what `SaveError` says: an account of another group, an account on both sides, or debits that differ from credits |
| `Accounting.DoubleEntryBalances` | itkufs/accounting/models.py:484-505 | when the checks pass on one-sided entries, total debit equals total credit |
| `Accounting.OneSidedSums` | itkufs/accounting/models.py:484-491 | for one-sided entries, the sums of the debit and credit sides are the plain debit and credit totals |
| `Accounting.EntryError` | itkufs/accounting/models.py:692-709 | an entry is refused iff its transaction is registered, an amount is negative, both amounts are positive, or both are zero |
| `Accounting.Transaction.AddEntry` | itkufs/accounting/models.py:692-709 | the entry is appended iff `EntryError` finds nothing |
| `Accounting.Transaction.constructor` | itkufs/accounting/models.py:422-426 | a new transaction has no status, no entries and no logs |
| `Accounting.Transaction.Save` | itkufs/accounting/models.py:477-508 | the transaction is saved iff the entry checks pass, only `saved` changes, and `Valid` is kept |
| `Accounting.Transaction.SaveLog` | itkufs/accounting/models.py:650-659 | an already saved log is refused; an unsaved transaction is saved first; a second log of the same type is refused; otherwise the log is appended |
| `Accounting.Transaction.AdvanceTo` | itkufs/accounting/models.py:510-555 | the shared tail of the transitions: set the status, save, and log the step |
| `Accounting.Transaction.SetRegistered` | itkufs/accounting/models.py:510-525 | changes the state exactly as `RegisterStep`, and keeps the status and the logs consistent (`Valid`) |
| `Accounting.Transaction.SetPayed` | itkufs/accounting/models.py:527-539 | changes the state exactly as `PayStep`, and keeps the status and the logs consistent (`Valid`) |
| `Accounting.Transaction.SetReceived` | itkufs/accounting/models.py:541-555 | changes the state exactly as `ReceiveStep`, and keeps the status and the logs consistent (`Valid`) |
| `Accounting.Transaction.Reject` | itkufs/accounting/models.py:557-579 | changes the state exactly as `RejectStep`, and keeps the status and the logs consistent (`Valid`) |
| `Accounting.RegisterSpec` | itkufs/accounting/models.py:510-525 | succeeds iff the status is still new and the entries pass; the status becomes registered with exactly one more log, of type registered; valid states stay valid |
| `Accounting.PaySpec` | itkufs/accounting/models.py:527-539 | succeeds iff the transaction is registered and not yet payed, received or rejected; the status becomes payed with one payed log |
| `Accounting.ReceiveUnpaidPays` | itkufs/accounting/models.py:541-544 | a registered transaction that was never paid is received without error, and gains a payed log on the way |
| `Accounting.ReceiveSpec` | itkufs/accounting/models.py:541-555 | succeeds iff the transaction is registered or payed; from registered it first adds an automatic payed log, then a received log |
| `Accounting.RejectSpec` | itkufs/accounting/models.py:557-579 | succeeds iff the transaction is registered and neither payed nor received; the status becomes rejected with one rejected log |
| `Accounting.ApplyValid` | itkufs/accounting/models.py:477-579 | each operation on a transaction keeps the state valid: the logs are exactly those of the statuses reached |
| `Accounting.RunValid` | itkufs/accounting/models.py:477-579 | any sequence of operations keeps the state valid |
| `Accounting.OneLogPerType` | itkufs/accounting/models.py:650-659 | from a new transaction, any sequence of operations leaves at most one log of each type |
| `Accounting.LogtypeChoices` | itkufs/accounting/models.py:618-633 | the blank choice comes first and no other choice is the blank status |
| `Accounting.ChoicesMatchTransitions` | itkufs/accounting/models.py:618-633 | for a registered or payed transaction, a log type is offered iff the matching transition would succeed |
| `Accounting.ClosedStatuses` | itkufs/accounting/models.py:621-622 | a rejected or received transaction offers only the blank choice, and every transition on it fails |
| `AccountingAccounts.BalanceSql` | itkufs/accounting/models.py:156-182 | the balance query is NULL iff no entry of a received transaction exists |
| `AccountingAccounts.BalanceIsDebitNet` | itkufs/accounting/models.py:250-254 | the balance is debit minus credit over received entries |
| `AccountingAccounts.UnreceivedIgnored` | itkufs/accounting/models.py:250-254 | entries of transactions that are not received do not change the balance |
| `AccountingAccounts.UserBalance` | itkufs/accounting/models.py:256-264 | a user account shows credit minus debit; any other account shows debit minus credit |
| `AccountingAccounts.BlockedMeans` | itkufs/accounting/models.py:270-277 | an account is blocked iff it is a user account, does not ignore the limit, the group has a block limit, and the user balance is below it |
| `AccountingAccounts.BlockedIsWarned` | itkufs/accounting/models.py:270-286 | with a block limit at or below the warn limit, a blocked account also needs a warning |
| `AccountingAccounts.Group.constructor` | itkufs/accounting/models.py:54-70 | a new group has no accounts and no bank or cash account |
| `AccountingAccounts.Group.SaveAccount` | itkufs/accounting/models.py:245-248 | an account with an empty slug is refused; otherwise it is added |
| `AccountingAccounts.Group.Save` | itkufs/accounting/models.py:54-70 | an empty slug is refused; a group without accounts gets exactly Bank and Cash, and `bank_account`/`cash_account` point at them; a group with accounts keeps them |
| `CommonModels.DebitToIncrease` | itkufs/common/models.py:155-168 | `False` exactly for liability and income, `True` exactly for asset and expense, `None` exactly for equity |
| `CommonModels.Balance` | itkufs/common/models.py:170-179 | the loop computes the sum of credit minus debit over received entries |
| `CommonModels.ReceivedBalanceAppend` | itkufs/common/models.py:170-179 | the balance of two entry lists joined is the sum of their balances |
| `CommonModels.UnreceivedIgnored` | itkufs/common/models.py:170-179 | the balance equals the balance of the received entries alone |
| `CommonModels.BalanceCreditReversed` | itkufs/common/models.py:181-189 | asset and expense balances are unchanged; liability, income and equity balances are negated |
| `CommonModels.BlockedMeans` | itkufs/common/models.py:199-206 | blocked iff a user account, not ignoring the limit, with a group block limit, and a reversed balance below it |
| `CommonModels.BlockedIsWarned` | itkufs/common/models.py:199-215 | with a block limit at or below the warn limit, blocked implies a warning |
| `CommonModels.Group.constructor` | itkufs/common/models.py:43-56 | a new group has no accounts |
| `CommonModels.Group.Save` | itkufs/common/models.py:43-56 | a group without accounts gets exactly Bank and Cash, of type asset, and the bank and cash fields point at them; otherwise nothing changes |
| `CommonModels.FilterMembers` | itkufs/common/models.py:68-107 | a status filter keeps exactly the statuses it selects |
| `CommonModels.FilterPartition` | itkufs/common/models.py:68-107 | two complementary filters split a list into two parts whose multisets add up to it |
| `CommonModels.StatusSetsPartition` | itkufs/common/models.py:73-103 | payed and not payed partition the non-rejected transactions, and so do received and not received; rejected and non-rejected partition all |
| `CommonModels.StatusSetCounts` | itkufs/common/tests/models.py:52-113 | on one transaction of each status, the sets have the sizes the tests expect |
| `ReportModels.List.constructor` | itkufs/reports/models.py:10-13 | a new list holds the given name, widths and columns |
| `ReportModels.List.TotalWidth` | itkufs/reports/models.py:32-36 | the loop returns the account width plus the balance width plus the column widths, and with non-negative widths this is at least the first two |
| `ReportModels.List.TotalColumnCount` | itkufs/reports/models.py:38-42 | the count is one more than the number of columns, plus one iff the balance width is non-zero |
| `ReportViews.AddRows` | itkufs/reports/views.py:136-153 | the loop appends the rows and adds their balances to the running sum |
| `ReportViews.Balance` | itkufs/reports/views.py:122-178 | asset sum; liabilities with one "Member accounts" row appended; equities with the net income row appended last; afterwards liabilities plus equity equal assets |
| `ReportViews.Income` | itkufs/reports/views.py:180-212 | income minus expenses is the difference reported |
| `ReportForms.JoinSplit` | itkufs/reports/forms.py:78 | joining the parts of `str.split` with the separator gives the string back |
| `ReportForms.PriceFieldOfCell` | itkufs/reports/forms.py:25-37 | dropping the last "-" segment of a cell field name gives the price field of its column |
| `ReportForms.CleanAsWritten` | itkufs/reports/forms.py:57-64 | as written: a TypeError iff a blank cell comes before every positive one; otherwise success iff some cell is positive |
| `ReportForms.Clean` | itkufs/reports/forms.py:57-64 | succeeds iff some account cell holds a value above 0; otherwise "Please fill in at least one account entry." |
| `ReportForms.BlankCellCrashes` | itkufs/reports/forms.py:57-64 | a blank first cell followed by a positive one crashes as written, but is accepted by the corrected check |
| `ReportForms.CleanAgrees` | itkufs/reports/forms.py:57-64 | without blank cells, the code as written and the corrected check agree |
| `ReportForms.AccountAmount` | itkufs/reports/forms.py:75-79 | the inner loop computes the account's `Amount`: its count in each column times that column's price, found through the cell field's name with its last dash-separated segment dropped |
| `ReportForms.TransactionEntries` | itkufs/reports/forms.py:66-89 | built on the corrected `Clean` (see Findings): None iff a field failed or `Clean` refuses the grid; otherwise, in account order, one debit entry for each account charged more than 0, then one credit entry for the total when it is positive |
| `ReportForms.DebitEntriesTotals` | itkufs/reports/forms.py:74-82 | the debit entries are positive and one-sided, and their total is what was charged |
| `ReportForms.ListEntriesBalance` | itkufs/reports/forms.py:80-89 | the generated entries balance, and every one of them passes the entry checks |
| `ReportForms.ListClean` | itkufs/reports/forms.py:105-119 | fails iff both the account width and the short-name width are 0 or blank |
| `ReportForms.ColumnClean` | itkufs/reports/forms.py:147-153 | "Name missing" iff a width comes without a name; "Width missing" iff a name comes without a width; a missing field raises KeyError |
| `ReportForms.SaveList` | itkufs/reports/forms.py:121-136 | an empty slug becomes `slugify(name)`; the group is set only when given; the extra accounts are stored only on commit |
| `Billing.Status` | itkufs/billing/models.py:22-27 | the status is "Pending" or "Committed" |
| `Billing.CssClass` | itkufs/billing/models.py:29-33 | the class is "pending" or "committed" |
| `Billing.StatusAgrees` | itkufs/billing/models.py:19-33 | "Pending" iff no transaction is linked, and the status and the class always agree |
| `Billing.BillingLineCleanAsWritten` | itkufs/billing/forms.py:32-46 | as written: a blank amount raises TypeError; otherwise it behaves as the corrected check |
| `Billing.BillingLineClean` | itkufs/billing/forms.py:32-46 | accepted iff the description is not blank and the amount is above 0; otherwise "Description missing" and/or "Amount missing", in that order |
| `Billing.BlankAmountCrashes` | itkufs/billing/forms.py:33-44 | a blank amount crashes as written, where "Amount missing" is meant |
| `Billing.InvalidAmountMissing` | itkufs/billing/forms.py:33 | a missing amount (default −1) reports "Amount missing" |
| `CommonForms.CleanAdmins` | itkufs/common/forms.py:60-71 | succeeds iff the admin list is non-empty and holds the editing user; both errors are collected; on success the admins are returned unchanged |
| `CommonForms.CleanAdminsBoth` | itkufs/common/forms.py:60-71 | an empty admin list gives both errors, in order |
| `CommonForms.CleanOwnerAsWritten` | itkufs/common/forms.py:21-27 | as written: refused iff some account of the group has the same owner, where a missing owner matches ownerless accounts |
| `CommonForms.CleanOwner` | itkufs/common/forms.py:21-27 | refused iff an owner is given who already has another account in the group than the one being edited |
| `CommonForms.EditSelfRefused` | itkufs/common/forms.py:24 | as written, keeping the owner while editing any account of the group is refused, because the query finds the edited account itself; the corrected check accepts it iff no other account has that owner |
| `CommonForms.OwnerlessRefused` | itkufs/common/forms.py:21-27 | in a group holding the Bank account, an ownerless account is refused as written and accepted by the corrected check |
| `CommonForms.CleanOwnerAgrees` | itkufs/common/forms.py:21-27 | for a new account with a given owner, the code as written and the corrected check agree |
| `CommonForms.AccountInstance.constructor` | itkufs/common/forms.py:29-44 | a new account instance has no group and is not saved |
| `CommonForms.SaveAccount` | itkufs/common/forms.py:29-44 | an empty slug becomes the owner's username, or `slugify(name)` without an owner; the group is set only when given; the account is saved only on commit, and never with an empty slug |
| `Widgets.Render` | itkufs/common/widgets.py:11-42 | the nested loops produce the newline-joined text of `Lines`: `<select…>`, one `<optgroup label=…>` per labelled group around its options, then `</select>` |
| `Widgets.ExampleOption` | itkufs/common/widgets.py:26-37 | the selected option line of key 1 and caption Beer, with escaping left out, is `<option value="1" selected="selected">Beer</option>` |
| `Widgets.RenderExample` | itkufs/common/widgets.py:16-41 | one labelled group Bar holding the current value renders as `<select>`, `<optgroup label="Bar">`, the selected option, `</optgroup>`, `</select>` |
| `Widgets.AppendGroup` | itkufs/common/widgets.py:20-39 | one pass of the outer loop appends exactly the lines of one group: its `<optgroup>` header when labelled, its options, its footer |
| `Widgets.AppendOptions` | itkufs/common/widgets.py:23-37 | the inner loop appends one `<option>` line per choice, in choice order, marked selected exactly when its key equals the current value |
| `Widgets.OptionLines` | itkufs/common/widgets.py:26-37 | one option per choice, marked selected iff its key equals the current value |
| `Widgets.OptionsInChoiceOrder` | itkufs/common/widgets.py:19-37 | the options appear in the order of the choices |
| `Widgets.SelectedIffCurrent` | itkufs/common/widgets.py:13-17 | an option is selected iff its key equals the current value |
| `Widgets.SelectFrames` | itkufs/common/widgets.py:15 | the output starts with the select tag and ends with `</select>` |
| `Widgets.OptgroupsBalanced` | itkufs/common/widgets.py:19-39 | opening and closing optgroup tags are both emitted exactly once per labelled group |
| `Widgets.Clean` | itkufs/common/widgets.py:62-82 | a blank value is "" when optional and an error when required; another value is returned unchanged iff it is the key of some choice, and refused otherwise |
| `Widgets.CleanAcceptsSelectable` | itkufs/common/widgets.py:62-82 | a value is a valid choice iff some rendered option carries it |
| `Decorators.LimitToGroup` | itkufs/common/decorators.py:7-27 | an admin passes; a non-admin passes iff they own an account in the group; a missing `is_admin` or group fails the assertion |
| `Decorators.LimitToOwner` | itkufs/common/decorators.py:30-46 | an admin passes; a non-admin passes iff `is_owner` is present and true |
| `Decorators.LimitToAdmin` | itkufs/common/decorators.py:49-59 | only an admin passes; a missing `is_admin` fails the assertion |
| `Decorators.AdminIsStrictest` | itkufs/common/decorators.py:7-59 | whoever passes `limit_to_admin` passes the other two |
| `EntryFilter.DoHide` | itkufs/common/templatetags/ufs.py:9-21 | the tag is accepted iff it has exactly two arguments and neither is a quoted literal; otherwise TemplateSyntaxError |
| `EntryFilter.UserCredit` | itkufs/common/templatetags/ufs.py:41-47 | NULL iff the viewer has no entry; otherwise whether the viewer's entry credits more than it debits |
| `EntryFilter.FilterEntries` | itkufs/common/templatetags/ufs.py:56-66 | the loop builds exactly the list `Hidden` describes |
| `EntryFilter.OwnEntryKept` | itkufs/common/templatetags/ufs.py:58-59 | the viewer's own entry is kept unchanged |
| `EntryFilter.CreditViewer` | itkufs/common/templatetags/ufs.py:60-62 | a viewer on the credit side sees every debit entry with its debit shown as '-', and no other credit entry |
| `EntryFilter.DebitViewer` | itkufs/common/templatetags/ufs.py:63-65 | a viewer on the debit side, or without an entry, sees every credit entry with its credit shown as '-', and no other debit entry |
| `EntryFilter.HiddenIsSubsequence` | itkufs/common/templatetags/ufs.py:56-66 | the entries shown are a subsequence of the transaction's entries, in their order |
| `EntryFilter.ResolveAccountAsWritten` | itkufs/common/templatetags/ufs.py:31-40 | as written: an admin without an `account` variable gets UnboundLocalError; in every other case the result is the same as the corrected resolution |
| `EntryFilter.ResolveAccount` | itkufs/common/templatetags/ufs.py:31-36 | the `account` variable when set; otherwise the viewer's own account, with DoesNotExist when there is none; for an admin, no account |
| `EntryFilter.AdminWithoutAccount` | itkufs/common/templatetags/ufs.py:31-40 | an admin without an `account` variable crashes as written, and gets no account from the corrected resolution |
| `EntryFilter.Context.constructor` | itkufs/common/templatetags/ufs.py:28-30 | a new context holds the given account and no lists |
| `EntryFilter.Context.Render` | itkufs/common/templatetags/ufs.py:28-71 | built on the corrected `ResolveAccount` (see Findings): filters only when an account is known, the transaction does not have exactly two entries, and the viewer is not an admin; otherwise stores every entry; stores the result under the given name, caches a looked-up account, and renders "" |

## Left out

- Django's ORM, the SQL of the managers and `extra()` selects, and
  persistence. Saving is a `saved` flag. Query results are input sequences:
  the balance query is `BalanceSql`, and the `user_credit` sub-select is
  `UserCredit`.
- Decimal and float arithmetic. Amounts are integer cents, and the `float()`
  sums of `Transaction.save` are exact sums.
- Timestamps (`datetime.now()`, `last_modified`) and the e-mail notifications
  sent on reject. They are side effects the rules do not read.
- Translation with `ugettext`. Messages are their English text.
- The `unique_together` database constraints on logs and entries. The model
  enforces the log rule in `TransactionLog.save` instead.
- `Accounting.LogtypeChoices`: the order of the non-blank choices comes from
  a Python 2 dict and is unspecified. The model lists them in declaration
  order and proves only that the blank choice comes first and which statuses
  are offered.
- Messages that are `None` in `set_payed` and the other transitions: calling
  `.strip()` on them raises. The model takes a string.
- `str.strip()` is modelled on ASCII: the model strips the ASCII whitespace
  Python does, including 0x1C-0x1F, but not the non-ASCII whitespace
  (U+0085, U+00A0, U+2000-U+200A, …) that Python also strips.
- `AccountNumber.VerifyAccountNumber` and `AccountNumber.Verdict` accept only
  '0'-'9' as digits. Python's `int()` also accepts the other Unicode decimal
  digits, such as '٣'. For an eleven-character number holding one of those,
  the source returns True or False where the model returns
  `Err(InvalidLiteral)`.
- `Accounting.ReceiveStep` follows `set_received` (itkufs/accounting/models.py:541-544),
  which pays a registered transaction automatically before receiving it.
  The source's test `testReceiveNotPayedTransaction`
  (itkufs/accounting/tests/models.py:284-289) expects InvalidTransaction in
  that case. The code and its test disagree, and the model does not promise
  what the test expects; `Accounting.ReceiveUnpaidPays` states what the code
  does instead.
- `ReportForms.TransactionEntries` uses the corrected `ReportForms.Clean`.
  As written, `is_valid()` runs `clean`, which raises TypeError when a blank
  cell comes before every positive one, so `transaction_entries` raises too.
  The model returns the entries. `ReportForms.BlankCellCrashes` states the
  crash.
- `EntryFilter.Context.Render` uses the corrected `EntryFilter.ResolveAccount`.
  As written, an admin whose context has no `account` makes `render` raise
  UnboundLocalError. The model renders "" and stores every entry.
  `EntryFilter.AdminWithoutAccount` states the crash.
- Some functions are parameters of the model rather than definitions:
  `escape` and `flatatt` in the select widget, and `slugify` in the form
  `save` methods.
- `EntryFilter.FilterEntries` works on values. The source overwrites
  `e.debit`/`e.credit` on ORM objects in place. Each entry is fetched once,
  so nothing else sees those objects.
- Views, PDFs, URLs, management commands, authentication and the JavaScript
  files. They handle requests and rendering; no rule lives there.

## Findings

| source | as written | input that shows it | evidently intended | confidence | as-written member | corrected member |
|---|---|---|---|---|---|---|
| itkufs/reports/forms.py:57-64 | `clean` compares each cell with 0, and a blank cell cleans to `None` | a blank first cell, then a cell holding 2 | blank cells count as no entry, and the form is accepted | high, not executed | `ReportForms.BlankCellCrashes` (on `ReportForms.CleanAsWritten`) | `ReportForms.Clean` |
| itkufs/billing/forms.py:32-46 | `clean` compares the amount with 0, and a blank amount cleans to `None` | amount left blank, description "Beer" | "Amount missing" | high, not executed | `Billing.BlankAmountCrashes` (on `Billing.BillingLineCleanAsWritten`) | `Billing.BillingLineClean` |
| itkufs/common/forms.py:21-27 | `clean_owner` filters on `owner=None` when no owner is chosen, and that matches the ownerless Bank and Cash accounts | a new ownerless account in any group that has its Bank account | only an owner who already has an account is refused | medium, not executed | `CommonForms.OwnerlessRefused` (on `CommonForms.CleanOwnerAsWritten`) | `CommonForms.CleanOwner` |
| itkufs/common/templatetags/ufs.py:31-40 | `account` is bound only when the variable exists or the viewer is not an admin | an admin viewing a page whose context has no `account` | no filtering for admins, as the `not is_admin` test intends | high, not executed | `EntryFilter.AdminWithoutAccount` (on `EntryFilter.ResolveAccountAsWritten`) | `EntryFilter.ResolveAccount` |
| itkufs/common/forms.py:24 | `filter(owner=owner)` runs over all of the group's accounts, including the account being edited (itkufs/common/views/edit.py:96 passes it as `instance`) | editing any account's name while keeping its owner, Bank and Cash included | the edited account does not count against its own owner, as Django's own uniqueness checks leave the instance out | high, not executed | `CommonForms.EditSelfRefused` (on `CommonForms.CleanOwnerAsWritten`) | `CommonForms.CleanOwner` |
