/**
 * Accounts and groups of itkufs/accounting/models.py: the slug checks of
 * `Group.save` and `Account.save`, the default bank and cash accounts, and
 * the balance, warn-limit and block-limit rules of `Account`, whose inputs
 * the account manager computes in SQL (`balance_sql`, `is_user_account_sql`,
 * `group_block_limit_sql`).
 */
module AccountingAccounts {
  import opened Outcomes
  import opened Accounting

  datatype Account = Account(name: string, slug: string, kind: AccountType, owner: Option<nat>, ignoreBlockLimit: bool)

  /** The ValueError both `save` methods raise on an empty slug. */
  datatype SlugError = EmptySlug

  /** An entry on an account, with the status of its transaction. */
  datatype Posting = Posting(debit: int, credit: int, status: Status)

  /** `is_user_account_sql`: the account has an owner and is a liability account. */
  predicate IsUserAccount(a: Account)
  {
    a.owner.Some? && a.kind == Liability
  }

  /** The `balance_sql` column: SUM(debit) - SUM(credit) over the entries of
      received transactions, and NULL when there is no such entry. */
  function BalanceSql(ps: seq<Posting>): (r: Option<int>)
    ensures r.None? <==> forall i :: 0 <= i < |ps| ==> ps[i].status != Received
  {
    if ps == [] then None
    else
      var p := ps[|ps| - 1];
      var rest := BalanceSql(ps[..|ps| - 1]);
      assert forall i :: 0 <= i < |ps| - 1 ==> ps[..|ps| - 1][i] == ps[i];
      if p.status != Received then rest
      else Some((if rest.Some? then rest.value else 0) + p.debit - p.credit)
  }

  /** `balance`: `balance_sql`, or 0 when it is NULL (or 0). */
  function Balance(ps: seq<Posting>): int
  {
    var sql := BalanceSql(ps);
    if sql.Some? && sql.value != 0 then sql.value else 0
  }

  /** What the members owe and are owed, seen from the member's side: the
      credits minus the debits of the entries of received transactions. */
  function CreditNet(ps: seq<Posting>): int
  {
    if ps == [] then 0
    else
      var p := ps[|ps| - 1];
      CreditNet(ps[..|ps| - 1]) + (if p.status == Received then p.credit - p.debit else 0)
  }

  lemma {:induction false} BalanceIsDebitNet(ps: seq<Posting>)
    ensures Balance(ps) == -CreditNet(ps)
    decreases |ps|
  {
    if ps != [] {
      BalanceIsDebitNet(ps[..|ps| - 1]);
    }
  }

  /** Entries of transactions that are not received do not move the balance. */
  lemma UnreceivedIgnored(ps: seq<Posting>, p: Posting)
    requires p.status != Received
    ensures Balance(ps + [p]) == Balance(ps)
  {
    assert (ps + [p])[..|ps|] == ps;
  }

  /** `user_balance`: for a user account the balance is negated, so that it
      counts what the member has to their credit. */
  function UserBalance(a: Account, ps: seq<Posting>): (r: int)
    ensures IsUserAccount(a) ==> r == CreditNet(ps)
    ensures !IsUserAccount(a) ==> r == -CreditNet(ps)
  {
    BalanceIsDebitNet(ps);
    var balance := Balance(ps);
    if balance == 0 || !IsUserAccount(a) then balance else -1 * balance
  }

  /** `is_blocked`, with `group_block_limit_sql` as `blockLimit`. */
  predicate IsBlocked(a: Account, blockLimit: Option<int>, ps: seq<Posting>)
  {
    if !IsUserAccount(a) || a.ignoreBlockLimit || blockLimit.None? then false
    else UserBalance(a, ps) < blockLimit.value
  }

  /** `needs_warning`, with the group's `warn_limit` as `warnLimit`. */
  predicate NeedsWarning(a: Account, warnLimit: Option<int>, ps: seq<Posting>)
  {
    if !IsUserAccount(a) || a.ignoreBlockLimit || warnLimit.None? then false
    else UserBalance(a, ps) < warnLimit.value
  }

  /** A member is blocked exactly when the group has a block limit, the
      account does not ignore it, and the member's credit is below it. */
  lemma BlockedMeans(a: Account, blockLimit: Option<int>, ps: seq<Posting>)
    ensures IsBlocked(a, blockLimit, ps) <==>
      IsUserAccount(a) && !a.ignoreBlockLimit && blockLimit.Some? && CreditNet(ps) < blockLimit.value
  {
  }

  /** With the warn limit at or above the block limit, every blocked account
      is also warned. */
  lemma BlockedIsWarned(a: Account, blockLimit: int, warnLimit: int, ps: seq<Posting>)
    requires blockLimit <= warnLimit
    ensures IsBlocked(a, Some(blockLimit), ps) ==> NeedsWarning(a, Some(warnLimit), ps)
  {
  }

  /** The default accounts `Group.save` creates; their names are translated
      in the source. */
  const BankAccount := Account("Bank", "bank", Asset, None, false)
  const CashAccount := Account("Cash", "cash", Asset, None, false)

  /** A group and the accounts it holds, in creation order. */
  class Group {
    var slug: string
    var accounts: seq<Account>
    var bankAccount: Option<nat>   // index into `accounts`
    var cashAccount: Option<nat>

    constructor (slug: string)
      ensures this.slug == slug && accounts == [] && bankAccount.None? && cashAccount.None?
    {
      this.slug := slug;
      accounts := [];
      bankAccount := None;
      cashAccount := None;
    }

    /** The default-account pointers, when set, point at accounts of the group. */
    ghost predicate Valid()
      reads this
    {
      (bankAccount.Some? ==> bankAccount.value < |accounts|)
      && (cashAccount.Some? ==> cashAccount.value < |accounts|)
    }

    /** `Account.save` of a new account of this group. */
    method SaveAccount(a: Account) returns (err: Option<SlugError>)
      modifies this`accounts
      ensures err.Some? <==> a.slug == []
      ensures accounts == if err.None? then old(accounts) + [a] else old(accounts)
    {
      if |a.slug| == 0 {
        return Some(EmptySlug);
      }
      accounts := accounts + [a];
      err := None;
    }

    /** `Group.save`: refuses an empty slug; a group without accounts gets a
        bank and a cash account, which become its default accounts. */
    method Save() returns (err: Option<SlugError>)
      modifies this`accounts, this`bankAccount, this`cashAccount
      ensures err.Some? <==> slug == []
      ensures err.Some? || old(accounts) != [] ==>
        accounts == old(accounts) && bankAccount == old(bankAccount) && cashAccount == old(cashAccount)
      ensures err.None? && old(accounts) == [] ==>
        accounts == [BankAccount, CashAccount] && bankAccount == Some(0) && cashAccount == Some(1)
      ensures old(Valid()) ==> Valid()
    {
      if |slug| == 0 {
        return Some(EmptySlug);
      }
      if |accounts| == 0 {
        var e1 := SaveAccount(BankAccount);
        var e2 := SaveAccount(CashAccount);
        bankAccount := Some(0);
        cashAccount := Some(1);
      }
      err := None;
    }
  }
}
