/**
 * The older account model of itkufs/common/models.py: which side increases
 * an account of each type, the balance over entries of received
 * transactions, the user-account and limit predicates, the default accounts
 * of `Group.save`, and the group's status-filtered transaction sets, here
 * filters over a list of transaction statuses.
 */
module CommonModels {
  import opened Outcomes
  import opened Accounting

  datatype Account = Account(name: string, slug: string, kind: AccountType, owner: Option<nat>, ignoreBlockLimit: bool)

  /** An entry on the account; `received` tells whether its transaction has
      a Rec log. */
  datatype LedgerEntry = LedgerEntry(debit: int, credit: int, received: bool)

  /** `debit_to_increase`: `Some(false)` for credit-to-increase accounts,
      `Some(true)` for debit-to-increase accounts, `None` for equity. */
  function DebitToIncrease(t: AccountType): (r: Option<bool>)
    ensures r == Some(false) <==> t == Liability || t == Income
    ensures r == Some(true) <==> t == Asset || t == Expense
    ensures r.None? <==> t == Equity
  {
    match t
    case Liability | Income => Some(false)
    case Asset | Expense => Some(true)
    case Equity => None
  }

  /** The balance: credits minus debits over the entries of received
      transactions. */
  function ReceivedBalance(es: seq<LedgerEntry>): int
  {
    if es == [] then 0
    else
      var e := es[|es| - 1];
      ReceivedBalance(es[..|es| - 1]) + (if e.received then e.credit - e.debit else 0)
  }

  lemma {:induction false} ReceivedBalanceAppend(a: seq<LedgerEntry>, b: seq<LedgerEntry>)
    ensures ReceivedBalance(a + b) == ReceivedBalance(a) + ReceivedBalance(b)
    decreases |b|
  {
    if b == [] {
      assert a + b == a;
    } else {
      assert (a + b)[..|a + b| - 1] == a + b[..|b| - 1];
      ReceivedBalanceAppend(a, b[..|b| - 1]);
    }
  }

  /** Only entries of received transactions count: dropping the others
      leaves the balance unchanged. */
  lemma {:induction false} UnreceivedIgnored(es: seq<LedgerEntry>)
    ensures ReceivedBalance(es) == ReceivedBalance(ReceivedEntries(es))
    decreases |es|
  {
    if es != [] {
      var init, e := es[..|es| - 1], es[|es| - 1];
      assert es == init + [e];
      UnreceivedIgnored(init);
      ReceivedBalanceAppend(ReceivedEntries(init), if e.received then [e] else []);
      assert [e][..0] == [];
    }
  }

  function ReceivedEntries(es: seq<LedgerEntry>): seq<LedgerEntry>
  {
    if es == [] then [] else ReceivedEntries(es[..|es| - 1]) + (if es[|es| - 1].received then [es[|es| - 1]] else [])
  }

  /** `balance`: the loop over the entries of received transactions. */
  method Balance(es: seq<LedgerEntry>) returns (balance: int)
    ensures balance == ReceivedBalance(es)
  {
    balance := 0;
    var i := 0;
    while i < |es|
      invariant 0 <= i <= |es|
      invariant balance == ReceivedBalance(es[..i])
    {
      assert es[..i + 1][..i] == es[..i];
      if es[i].received {
        balance := balance - es[i].debit;
        balance := balance + es[i].credit;
      }
      i := i + 1;
    }
    assert es[..i] == es;
  }

  /** `balance_credit_reversed`: the balance, negated unless the account
      increases with debit; equity accounts are negated too. */
  function BalanceCreditReversed(t: AccountType, balance: int): (r: int)
    ensures t == Asset || t == Expense ==> r == balance
    ensures t == Liability || t == Income || t == Equity ==> r == -balance
  {
    if balance == 0 || DebitToIncrease(t) == Some(true) then balance else -1 * balance
  }

  /** `is_user_account`. */
  predicate IsUserAccount(a: Account)
  {
    a.owner.Some? && a.kind == Liability
  }

  /** `is_blocked`, for the given entries and the group's `block_limit`. */
  predicate IsBlocked(a: Account, blockLimit: Option<int>, es: seq<LedgerEntry>)
  {
    if !IsUserAccount(a) || a.ignoreBlockLimit || blockLimit.None? then false
    else BalanceCreditReversed(a.kind, ReceivedBalance(es)) < blockLimit.value
  }

  /** `needs_warning`, for the given entries and the group's `warn_limit`. */
  predicate NeedsWarning(a: Account, warnLimit: Option<int>, es: seq<LedgerEntry>)
  {
    if !IsUserAccount(a) || a.ignoreBlockLimit || warnLimit.None? then false
    else BalanceCreditReversed(a.kind, ReceivedBalance(es)) < warnLimit.value
  }

  /** A user account is blocked exactly when the group has a block limit,
      the account does not ignore it, and the member's debt exceeds it: the
      negated credit balance lies below the limit. */
  lemma BlockedMeans(a: Account, blockLimit: Option<int>, es: seq<LedgerEntry>)
    ensures IsBlocked(a, blockLimit, es) <==>
      IsUserAccount(a) && !a.ignoreBlockLimit && blockLimit.Some? && -ReceivedBalance(es) < blockLimit.value
  {
  }

  /** With the warn limit at or above the block limit, every blocked account
      is also warned. */
  lemma BlockedIsWarned(a: Account, blockLimit: int, warnLimit: int, es: seq<LedgerEntry>)
    requires blockLimit <= warnLimit
    ensures IsBlocked(a, Some(blockLimit), es) ==> NeedsWarning(a, Some(warnLimit), es)
  {
  }

  const BankAccount := Account("Bank", "bank", Asset, None, false)
  const CashAccount := Account("Cash", "cash", Asset, None, false)

  /** A group and the accounts it holds, in creation order. */
  class Group {
    var accounts: seq<Account>
    var bankAccount: Option<nat>   // index into `accounts`
    var cashAccount: Option<nat>

    constructor ()
      ensures accounts == [] && bankAccount.None? && cashAccount.None?
    {
      accounts := [];
      bankAccount := None;
      cashAccount := None;
    }

    ghost predicate Valid()
      reads this
    {
      (bankAccount.Some? ==> bankAccount.value < |accounts|)
      && (cashAccount.Some? ==> cashAccount.value < |accounts|)
    }

    /** `Group.save`: a group without accounts gets a bank and a cash
        account, which become its default accounts; a group with accounts
        is left as it is. */
    method Save()
      modifies this
      ensures old(accounts) == [] ==>
        accounts == [BankAccount, CashAccount] && bankAccount == Some(0) && cashAccount == Some(1)
      ensures old(accounts) != [] ==>
        accounts == old(accounts) && bankAccount == old(bankAccount) && cashAccount == old(cashAccount)
      ensures old(Valid()) ==> Valid()
    {
      if |accounts| == 0 {
        accounts := accounts + [BankAccount];
        accounts := accounts + [CashAccount];
        bankAccount := Some(0);
        cashAccount := Some(1);
      }
    }
  }

  // ---------------------------------------------------------------------------
  // The group's transaction sets, as filters over the statuses of its transactions

  function Filter(ts: seq<Status>, keep: Status -> bool): (r: seq<Status>)
    ensures |r| <= |ts|
  {
    if ts == [] then [] else Filter(ts[..|ts| - 1], keep) + (if keep(ts[|ts| - 1]) then [ts[|ts| - 1]] else [])
  }

  /** A filtered list holds exactly the elements that pass the test. */
  lemma {:induction false} FilterMembers(ts: seq<Status>, keep: Status -> bool)
    ensures forall i :: 0 <= i < |Filter(ts, keep)| ==> keep(Filter(ts, keep)[i])
    ensures forall s :: s in Filter(ts, keep) <==> s in ts && keep(s)
    decreases |ts|
  {
    if ts != [] {
      FilterMembers(ts[..|ts| - 1], keep);
      assert ts == ts[..|ts| - 1] + [ts[|ts| - 1]];
    }
  }

  predicate NotRejectedStatus(s: Status) { s != Rejected }
  predicate RegisteredStatus(s: Status) { s != Undefined }
  predicate PayedStatus(s: Status) { s == Payed || s == Received }
  predicate NotPayedStatus(s: Status) { s == Undefined || s == Registered }
  predicate ReceivedStatus(s: Status) { s == Received }
  predicate NotReceivedStatus(s: Status) { s != Received }
  predicate RejectedStatus(s: Status) { s == Rejected }

  /** `transaction_set_with_rejected`: every transaction of the group. */
  function WithRejected(ts: seq<Status>): seq<Status> { ts }

  /** `transaction_set`, alias `not_rejected_transaction_set`. */
  function NotRejected(ts: seq<Status>): seq<Status> { Filter(WithRejected(ts), NotRejectedStatus) }

  function RegisteredSet(ts: seq<Status>): seq<Status> { Filter(NotRejected(ts), RegisteredStatus) }

  function PayedSet(ts: seq<Status>): seq<Status> { Filter(NotRejected(ts), PayedStatus) }

  function NotPayedSet(ts: seq<Status>): seq<Status> { Filter(NotRejected(ts), NotPayedStatus) }

  function ReceivedSet(ts: seq<Status>): seq<Status> { Filter(NotRejected(ts), ReceivedStatus) }

  function NotReceivedSet(ts: seq<Status>): seq<Status> { Filter(NotRejected(ts), NotReceivedStatus) }

  function RejectedSet(ts: seq<Status>): seq<Status> { Filter(WithRejected(ts), RejectedStatus) }

  /** Two tests that agree on every element of a list split it the same way:
      a list split by one test and the other, disjoint, test loses nothing. */
  lemma {:induction false} FilterPartition(ts: seq<Status>, keep: Status -> bool, drop: Status -> bool)
    requires forall i :: 0 <= i < |ts| ==> drop(ts[i]) == !keep(ts[i])
    ensures multiset(Filter(ts, keep)) + multiset(Filter(ts, drop)) == multiset(ts)
    decreases |ts|
  {
    if ts != [] {
      var init := ts[..|ts| - 1];
      assert forall i :: 0 <= i < |init| ==> init[i] == ts[i];
      FilterPartition(init, keep, drop);
      PartitionStep(ts, keep, drop);
    }
  }

  lemma PartitionStep(ts: seq<Status>, keep: Status -> bool, drop: Status -> bool)
    requires ts != [] && drop(ts[|ts| - 1]) == !keep(ts[|ts| - 1])
    requires var init := ts[..|ts| - 1];
      multiset(Filter(init, keep)) + multiset(Filter(init, drop)) == multiset(init)
    ensures multiset(Filter(ts, keep)) + multiset(Filter(ts, drop)) == multiset(ts)
  {
    var init, x := ts[..|ts| - 1], ts[|ts| - 1];
    FilterSnoc(ts, keep);
    FilterSnoc(ts, drop);
    SnocMultiset(ts);
  }

  lemma FilterSnoc(ts: seq<Status>, keep: Status -> bool)
    requires ts != []
    ensures var x := ts[|ts| - 1];
      multiset(Filter(ts, keep)) == multiset(Filter(ts[..|ts| - 1], keep)) + (if keep(x) then multiset{x} else multiset{})
  {
  }

  lemma SnocMultiset(ts: seq<Status>)
    requires ts != []
    ensures multiset(ts) == multiset(ts[..|ts| - 1]) + multiset{ts[|ts| - 1]}
  {
    assert ts == ts[..|ts| - 1] + [ts[|ts| - 1]];
  }

  /** The payed and the not-payed transactions partition the non-rejected
      ones, and so do the received and the not-received ones; the rejected
      ones and the rest partition them all. */
  lemma StatusSetsPartition(ts: seq<Status>)
    ensures multiset(PayedSet(ts)) + multiset(NotPayedSet(ts)) == multiset(NotRejected(ts))
    ensures multiset(ReceivedSet(ts)) + multiset(NotReceivedSet(ts)) == multiset(NotRejected(ts))
    ensures multiset(RejectedSet(ts)) + multiset(NotRejected(ts)) == multiset(ts)
    ensures forall s :: s in RejectedSet(ts) <==> s == Rejected && s in ts
  {
    var nr := NotRejected(ts);
    FilterMembers(ts, NotRejectedStatus);
    FilterMembers(ts, RejectedStatus);
    FilterPartition(nr, PayedStatus, NotPayedStatus);
    FilterPartition(nr, ReceivedStatus, NotReceivedStatus);
    FilterPartition(ts, RejectedStatus, NotRejectedStatus);
  }

  function Kept(s: Status, keep: Status -> bool): seq<Status>
  {
    if keep(s) then [s] else []
  }

  lemma FilterThree(a: Status, b: Status, c: Status, keep: Status -> bool)
    ensures Filter([a, b, c], keep) == Kept(a, keep) + Kept(b, keep) + Kept(c, keep)
  {
    assert [a, b, c][..2] == [a, b] && [a, b][..1] == [a] && [a][..0] == [];
    assert Filter([a], keep) == Kept(a, keep);
    assert Filter([a, b], keep) == Kept(a, keep) + Kept(b, keep);
  }

  lemma FilterFour(a: Status, b: Status, c: Status, d: Status, keep: Status -> bool)
    ensures Filter([a, b, c, d], keep) == Kept(a, keep) + Kept(b, keep) + Kept(c, keep) + Kept(d, keep)
  {
    assert [a, b, c, d][..3] == [a, b, c];
    FilterThree(a, b, c, keep);
  }

  /** The transactions of the group's tests: one registered, one payed, one
      received and one rejected. */
  lemma StatusSetCounts()
    ensures var ts := [Registered, Payed, Received, Rejected];
      |NotRejected(ts)| == 3 && |WithRejected(ts)| == 4 && |RegisteredSet(ts)| == 3
      && |PayedSet(ts)| == 2 && |NotPayedSet(ts)| == 1 && |ReceivedSet(ts)| == 1
      && |NotReceivedSet(ts)| == 2 && |RejectedSet(ts)| == 1
  {
    var ts := [Registered, Payed, Received, Rejected];
    FilterFour(Registered, Payed, Received, Rejected, NotRejectedStatus);
    FilterFour(Registered, Payed, Received, Rejected, RejectedStatus);
    var nr := [Registered, Payed, Received];
    assert NotRejected(ts) == nr;
    FilterThree(Registered, Payed, Received, RegisteredStatus);
    FilterThree(Registered, Payed, Received, PayedStatus);
    FilterThree(Registered, Payed, Received, NotPayedStatus);
    FilterThree(Registered, Payed, Received, ReceivedStatus);
    FilterThree(Registered, Payed, Received, NotReceivedStatus);
  }
}
