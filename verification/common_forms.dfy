/**
 * The checks and the save of itkufs/common/forms.py: a group keeps at least
 * one admin and the editing admin cannot remove themselves, a user has at
 * most one account per group, and a new account gets a slug from its
 * owner's username or its name.
 */
module CommonForms {
  import opened Outcomes
  import AccountingAccounts

  const NoAdminMessage := "The group must have at least one admin"
  const SelfRemovalMessage := "You are not allowed to remove your own admin privileges"
  const OneAccountMessage := "Users may only have one account per group"

  /** `GroupForm.clean_admins`; `user` is the editing user, if the form has
      one. Both complaints that apply are raised together. */
  function CleanAdmins(admins: seq<nat>, user: Option<nat>): (r: Result<seq<nat>, FormError>)
    ensures r.Ok? <==> |admins| > 0 && (user.Some? ==> user.value in admins)
    ensures r.Ok? ==> r.value == admins
    ensures r.Err? ==> r.error == ValidationError(
      (if |admins| == 0 then [NoAdminMessage] else [])
      + (if user.Some? && user.value !in admins then [SelfRemovalMessage] else []))
  {
    var errors := (if |admins| == 0 then [NoAdminMessage] else [])
      + (if user.Some? && user.value !in admins then [SelfRemovalMessage] else []);
    if errors != [] then Err(ValidationError(errors)) else Ok(admins)
  }

  /** An empty admin list by the editing user raises both complaints at once. */
  lemma CleanAdminsBoth(user: nat)
    ensures CleanAdmins([], Some(user)) == Err(ValidationError([NoAdminMessage, SelfRemovalMessage]))
  {
    assert [NoAdminMessage] + [SelfRemovalMessage] == [NoAdminMessage, SelfRemovalMessage];
  }

  /** Whether one of the accounts has this owner; `None` matches the
      accounts without an owner, as `filter(owner=None)` does. */
  predicate HasOwner(accounts: seq<AccountingAccounts.Account>, owner: Option<nat>)
  {
    exists i :: 0 <= i < |accounts| && accounts[i].owner == owner
  }

  /** `AccountForm.clean_owner` as written; `group` holds the accounts of the
      form's group, if it has one. An account without an owner is refused in
      any group that already has such an account. */
  function CleanOwnerAsWritten(owner: Option<nat>, group: Option<seq<AccountingAccounts.Account>>): (r: Result<Option<nat>, FormError>)
    ensures r.Err? <==> group.Some? && HasOwner(group.value, owner)
    ensures r.Ok? ==> r.value == owner
  {
    if group.Some? && HasOwner(group.value, owner) then Err(ValidationError([OneAccountMessage]))
    else Ok(owner)
  }

  /** Whether an account other than the one being edited has this owner;
      `instance` is the edited account's position among the group's
      accounts, or None for a new account. */
  predicate HasOtherOwner(accounts: seq<AccountingAccounts.Account>, owner: Option<nat>, instance: Option<nat>)
  {
    exists i :: 0 <= i < |accounts| && Some(i) != instance && accounts[i].owner == owner
  }

  /** `AccountForm.clean_owner` as intended: only a user who already owns
      another account of the group is refused; the account being edited
      does not count against its own owner. */
  function CleanOwner(owner: Option<nat>, group: Option<seq<AccountingAccounts.Account>>, instance: Option<nat>): (r: Result<Option<nat>, FormError>)
    ensures r.Err? <==> owner.Some? && group.Some? && HasOtherOwner(group.value, owner, instance)
    ensures r.Ok? ==> r.value == owner
    ensures r.Err? ==> r.error == ValidationError([OneAccountMessage])
  {
    if owner.Some? && group.Some? && HasOtherOwner(group.value, owner, instance) then Err(ValidationError([OneAccountMessage]))
    else Ok(owner)
  }

  /** Every group that `Group.save` gave its bank and cash accounts refuses,
      as written, any further account without an owner. */
  lemma OwnerlessRefused(accounts: seq<AccountingAccounts.Account>)
    requires |accounts| >= 1 && accounts[0] == AccountingAccounts.BankAccount
    ensures CleanOwnerAsWritten(None, Some(accounts)).Err?
    ensures CleanOwner(None, Some(accounts), None).Ok?
  {
    assert accounts[0].owner == None;
  }

  /** Editing an account without changing its owner: the query as written
      finds the edited account itself and refuses the edit, whoever the
      owner is; the corrected check accepts it unless another account of
      the group has the same owner. */
  lemma EditSelfRefused(accounts: seq<AccountingAccounts.Account>, i: nat)
    requires i < |accounts|
    ensures CleanOwnerAsWritten(accounts[i].owner, Some(accounts)).Err?
    ensures CleanOwner(accounts[i].owner, Some(accounts), Some(i)).Ok? <==>
      accounts[i].owner.None? || forall j :: 0 <= j < |accounts| && j != i ==> accounts[j].owner != accounts[i].owner
  {
    assert accounts[i].owner == accounts[i].owner;
  }

  /** For a new account with an owner the two agree. */
  lemma CleanOwnerAgrees(owner: nat, group: Option<seq<AccountingAccounts.Account>>)
    ensures CleanOwnerAsWritten(Some(owner), group) == CleanOwner(Some(owner), group, None)
  {
    if group.Some? && HasOwner(group.value, Some(owner)) {
      var i :| 0 <= i < |group.value| && group.value[i].owner == Some(owner);
      assert Some(i) != None;
    }
  }

  datatype User = User(id: nat, username: string)

  /** The account instance an `AccountForm` builds. */
  class AccountInstance {
    var name: string
    var slug: string
    var owner: Option<User>
    var group: Option<nat>
    var saved: bool

    constructor (name: string, slug: string, owner: Option<User>)
      ensures this.name == name && this.slug == slug && this.owner == owner
      ensures group.None? && !saved
    {
      this.name := name;
      this.slug := slug;
      this.owner := owner;
      group := None;
      saved := false;
    }
  }

  /** `AccountForm.save`: an empty slug becomes the owner's username, or
      `slugify(name)` when there is no owner; the group is set when one is
      given; with `commit` the account is saved, which `Account.save`
      refuses when the slug is still empty. */
  method SaveAccount(account: AccountInstance, group: Option<nat>, commit: bool, slugify: string -> string)
    returns (err: Option<AccountingAccounts.SlugError>)
    modifies account
    ensures account.slug ==
      if old(account.slug) != [] then old(account.slug)
      else if old(account.owner).Some? then old(account.owner).value.username
      else slugify(old(account.name))
    ensures account.group == if group.Some? then group else old(account.group)
    ensures err.Some? <==> commit && account.slug == []
    ensures account.saved == (old(account.saved) || (commit && err.None?))
    ensures account.name == old(account.name) && account.owner == old(account.owner)
  {
    if account.slug == [] {
      if account.owner.Some? {
        account.slug := account.owner.value.username;
      } else {
        account.slug := slugify(account.name);
      }
    }
    if group.Some? {
      account.group := group;
    }
    err := None;
    if commit {
      if account.slug == [] {
        err := Some(AccountingAccounts.EmptySlug);
      } else {
        account.saved := true;
      }
    }
  }
}
