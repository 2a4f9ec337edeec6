/**
 * The `filter_entries` template tag of itkufs/common/templatetags/ufs.py.
 * A member looking at a transaction with more than two entries sees their
 * own entry, the entries on the other side with the amounts of that side
 * hidden behind '-', and not the other entries on their own side.
 */
module EntryFilter {
  import opened Outcomes

  /** What the tag raises. */
  datatype TagError = TemplateSyntaxError(message: string) | UnboundLocalError | DoesNotExist

  /** A bit of the tag that is a quoted string rather than a variable. */
  predicate QuotedLiteral(bit: string)
    requires bit != []
  {
    bit[0] == bit[|bit| - 1] && (bit[0] == '"' || bit[0] == '\'')
  }

  /** `do_hide`, given the bits `split_contents` cuts the tag into (never
      empty ones, and the tag name first): exactly a transaction and an
      entry-list variable must follow the tag name. */
  function DoHide(bits: seq<string>): (r: Result<(string, string), TagError>)
    requires |bits| >= 1 && forall i :: 0 <= i < |bits| ==> bits[i] != []
    ensures r.Ok? <==> |bits| == 3 && !QuotedLiteral(bits[1]) && !QuotedLiteral(bits[2])
    ensures r.Ok? ==> r.value == (bits[1], bits[2])
    ensures r.Err? ==> r.error.TemplateSyntaxError?
  {
    if |bits| != 3 then Err(TemplateSyntaxError("'" + bits[0] + "' tag requires exactly one arguments"))
    else if QuotedLiteral(bits[1]) then Err(TemplateSyntaxError("'" + bits[0] + "' tag only takes variables"))
    else if QuotedLiteral(bits[2]) then Err(TemplateSyntaxError("'" + bits[0] + "' tag only takes variables"))
    else Ok((bits[1], bits[2]))
  }

  /** An entry of the transaction, by account id, amounts in cents. */
  datatype TxEntry = TxEntry(account: nat, debit: int, credit: int)

  /** An amount as the template shows it: the value, or '-' when hidden. */
  datatype Amount = Value(v: int) | Dash

  datatype ShownEntry = ShownEntry(account: nat, debit: Amount, credit: Amount)

  function Shown(e: TxEntry): ShownEntry
  {
    ShownEntry(e.account, Value(e.debit), Value(e.credit))
  }

  function AllShown(es: seq<TxEntry>): (r: seq<ShownEntry>)
    ensures |r| == |es|
    ensures forall i :: 0 <= i < |es| ==> r[i] == Shown(es[i])
  {
    if es == [] then [] else AllShown(es[..|es| - 1]) + [Shown(es[|es| - 1])]
  }

  /** The `user_credit` column: whether the viewer's entry credits more
      than it debits, and NULL when the viewer has no entry (an account
      appears at most once in a transaction). */
  function UserCredit(es: seq<TxEntry>, account: nat): (r: Option<bool>)
    ensures r.None? <==> forall i :: 0 <= i < |es| ==> es[i].account != account
    ensures r.Some? ==> exists i :: 0 <= i < |es| && es[i].account == account && r.value == (es[i].credit > es[i].debit)
  {
    if es == [] then None
    else if es[0].account == account then Some(es[0].credit > es[0].debit)
    else
      var r := UserCredit(es[1..], account);
      assert forall i :: 0 < i < |es| ==> es[i] == es[1..][i - 1];
      r
  }

  /** What one entry becomes: kept as it is when it is the viewer's, kept
      with its debit hidden when the viewer credits and it debits, kept with
      its credit hidden when the viewer does not credit and it credits, and
      dropped otherwise. */
  function Filtered(e: TxEntry, account: nat, userCredit: Option<bool>): seq<ShownEntry>
  {
    if e.account == account then [Shown(e)]
    else if userCredit == Some(true) && e.debit != 0 then [ShownEntry(e.account, Dash, Value(e.credit))]
    else if userCredit != Some(true) && e.credit != 0 then [ShownEntry(e.account, Value(e.debit), Dash)]
    else []
  }

  /** The list the loop of `HideNode.render` builds. */
  function Hidden(es: seq<TxEntry>, account: nat, userCredit: Option<bool>): seq<ShownEntry>
  {
    if es == [] then [] else Hidden(es[..|es| - 1], account, userCredit) + Filtered(es[|es| - 1], account, userCredit)
  }

  /** The loop of `HideNode.render`. */
  method FilterEntries(es: seq<TxEntry>, account: nat) returns (tmp: seq<ShownEntry>)
    ensures tmp == Hidden(es, account, UserCredit(es, account))
  {
    var userCredit := UserCredit(es, account);
    tmp := [];
    var i := 0;
    while i < |es|
      invariant 0 <= i <= |es|
      invariant tmp == Hidden(es[..i], account, userCredit)
    {
      var e := es[i];
      assert es[..i + 1][..i] == es[..i];
      if e.account == account {
        tmp := tmp + [Shown(e)];
      } else if userCredit == Some(true) && e.debit != 0 {
        tmp := tmp + [ShownEntry(e.account, Dash, Value(e.credit))];
      } else if userCredit != Some(true) && e.credit != 0 {
        tmp := tmp + [ShownEntry(e.account, Value(e.debit), Dash)];
      }
      i := i + 1;
    }
    assert es[..i] == es;
  }

  // ---------------------------------------------------------------------------
  // What the viewer sees

  lemma {:induction false} HiddenMembers(es: seq<TxEntry>, account: nat, userCredit: Option<bool>)
    ensures forall r :: r in Hidden(es, account, userCredit) <==>
      exists i :: 0 <= i < |es| && r in Filtered(es[i], account, userCredit)
    decreases |es|
  {
    if es != [] {
      var init := es[..|es| - 1];
      HiddenMembers(init, account, userCredit);
      forall r | r in Hidden(es, account, userCredit)
        ensures exists i :: 0 <= i < |es| && r in Filtered(es[i], account, userCredit)
      {
        if r in Hidden(init, account, userCredit) {
          var i :| 0 <= i < |init| && r in Filtered(init[i], account, userCredit);
          assert es[i] == init[i];
        }
      }
      forall r, i | 0 <= i < |es| && r in Filtered(es[i], account, userCredit)
        ensures r in Hidden(es, account, userCredit)
      {
        if i < |init| {
          assert init[i] == es[i];
        }
      }
    }
  }

  /** The viewer's own entry is always shown unchanged. */
  lemma OwnEntryKept(es: seq<TxEntry>, account: nat, i: nat)
    requires i < |es| && es[i].account == account
    ensures Shown(es[i]) in Hidden(es, account, UserCredit(es, account))
  {
    HiddenMembers(es, account, UserCredit(es, account));
  }

  /** A viewer on the credit side sees no other credit entry, and every
      debit entry with its debit hidden. */
  lemma CreditViewer(es: seq<TxEntry>, account: nat)
    requires UserCredit(es, account) == Some(true)
    ensures forall r :: r in Hidden(es, account, Some(true)) && r.account != account ==> r.debit == Dash
    ensures forall i :: 0 <= i < |es| && es[i].account != account && es[i].debit != 0 ==>
      ShownEntry(es[i].account, Dash, Value(es[i].credit)) in Hidden(es, account, Some(true))
    ensures forall i :: 0 <= i < |es| && es[i].account != account && es[i].debit == 0 ==>
      forall r :: r in Hidden(es, account, Some(true)) && r.account == es[i].account ==> r.debit == Dash
  {
    HiddenMembers(es, account, Some(true));
  }

  /** A viewer on the debit side (or without an entry) sees no other debit
      entry, and every credit entry with its credit hidden. */
  lemma DebitViewer(es: seq<TxEntry>, account: nat)
    requires UserCredit(es, account) != Some(true)
    ensures forall r :: r in Hidden(es, account, UserCredit(es, account)) && r.account != account ==> r.credit == Dash
    ensures forall i :: 0 <= i < |es| && es[i].account != account && es[i].credit != 0 ==>
      ShownEntry(es[i].account, Value(es[i].debit), Dash) in Hidden(es, account, UserCredit(es, account))
  {
    HiddenMembers(es, account, UserCredit(es, account));
  }

  /** The account of each shown row, in order. */
  function Accounts(rs: seq<ShownEntry>): (ids: seq<nat>)
    ensures |ids| == |rs|
  {
    if rs == [] then [] else Accounts(rs[..|rs| - 1]) + [rs[|rs| - 1].account]
  }

  /** The account of each of the transaction's entries, in order. */
  function EntryAccounts(es: seq<TxEntry>): (ids: seq<nat>)
    ensures |ids| == |es|
  {
    if es == [] then [] else EntryAccounts(es[..|es| - 1]) + [es[|es| - 1].account]
  }

  /** `xs` is `ys` with some elements left out, in the same order. */
  ghost predicate Subsequence(xs: seq<nat>, ys: seq<nat>)
    decreases |ys|
  {
    if xs == [] then true
    else if ys == [] then false
    else if xs[|xs| - 1] == ys[|ys| - 1] && Subsequence(xs[..|xs| - 1], ys[..|ys| - 1]) then true
    else Subsequence(xs, ys[..|ys| - 1])
  }

  /** The entries shown are some of the transaction's entries, in their order. */
  lemma {:induction false} HiddenIsSubsequence(es: seq<TxEntry>, account: nat, userCredit: Option<bool>)
    ensures Subsequence(Accounts(Hidden(es, account, userCredit)), EntryAccounts(es))
    decreases |es|
  {
    if es != [] {
      var init := es[..|es| - 1];
      var e := es[|es| - 1];
      HiddenIsSubsequence(init, account, userCredit);
      var h := Hidden(init, account, userCredit);
      var f := Filtered(e, account, userCredit);
      var xs := Accounts(h);
      var ys := EntryAccounts(es);
      assert ys[..|ys| - 1] == EntryAccounts(init);
      if f == [] {
        assert h + f == h;
        if xs != [] {
          SubsequenceDropLast(xs, ys);
        }
      } else {
        assert (h + f)[..|h|] == h;
        AccountsFiltered(h, f, e, account, userCredit);
        SubsequenceSnoc(xs, ys, e.account);
      }
    }
  }

  lemma AccountsFiltered(h: seq<ShownEntry>, f: seq<ShownEntry>, e: TxEntry, account: nat, userCredit: Option<bool>)
    requires f == Filtered(e, account, userCredit) && f != []
    ensures Accounts(h + f) == Accounts(h) + [e.account]
  {
    assert (h + f)[..|h|] == h;
  }

  lemma SubsequenceSnoc(xs: seq<nat>, ys: seq<nat>, a: nat)
    requires ys != [] && ys[|ys| - 1] == a && Subsequence(xs, ys[..|ys| - 1])
    ensures Subsequence(xs + [a], ys)
  {
    assert (xs + [a])[..|xs|] == xs;
  }

  lemma SubsequenceDropLast(xs: seq<nat>, ys: seq<nat>)
    requires ys != [] && Subsequence(xs, ys[..|ys| - 1])
    ensures Subsequence(xs, ys)
  {
  }

  // ---------------------------------------------------------------------------
  // HideNode.render

  /** How `render` finds the viewer's account, as written. `ctxAccount` is
      the `account` template variable (outer None: not set), `viewerAccount`
      the viewer's account in the group (None: there is none). An admin
      without an `account` variable leaves the local `account` unbound, and
      the test that follows raises UnboundLocalError. */
  function ResolveAccountAsWritten(isAdmin: bool, ctxAccount: Option<Option<nat>>, viewerAccount: Option<nat>)
    : (r: Result<Option<nat>, TagError>)
    ensures ctxAccount.None? && isAdmin ==> r == Err(UnboundLocalError)
    ensures !(ctxAccount.None? && isAdmin) ==> r == ResolveAccount(isAdmin, ctxAccount, viewerAccount)
  {
    if ctxAccount.Some? then Ok(ctxAccount.value)
    else if !isAdmin then
      if viewerAccount.None? then Err(DoesNotExist) else Ok(viewerAccount)
    else Err(UnboundLocalError)
  }

  /** How `render` finds the viewer's account as intended: an admin without
      an `account` variable has no account to filter for. */
  function ResolveAccount(isAdmin: bool, ctxAccount: Option<Option<nat>>, viewerAccount: Option<nat>)
    : (r: Result<Option<nat>, TagError>)
    ensures r.Err? <==> ctxAccount.None? && !isAdmin && viewerAccount.None?
    ensures r.Err? ==> r.error == DoesNotExist
    ensures ctxAccount.Some? ==> r == Ok(ctxAccount.value)
    ensures ctxAccount.None? && !isAdmin && viewerAccount.Some? ==> r == Ok(viewerAccount)
    ensures ctxAccount.None? && isAdmin ==> r == Ok(None)
  {
    if ctxAccount.Some? then Ok(ctxAccount.value)
    else if !isAdmin then
      if viewerAccount.None? then Err(DoesNotExist) else Ok(viewerAccount)
    else Ok(None)
  }

  /** An admin opening a page without an `account` variable: the tag as
      written fails, where it means to show every entry. */
  lemma AdminWithoutAccount(viewerAccount: Option<nat>)
    ensures ResolveAccountAsWritten(true, None, viewerAccount) == Err(UnboundLocalError)
    ensures ResolveAccount(true, None, viewerAccount) == Ok(None)
  {
  }

  /** The template context: the `account` variable (outer None: not set)
      and the entry lists the tag has stored by name. */
  class Context {
    var account: Option<Option<nat>>
    var lists: map<string, seq<ShownEntry>>

    constructor (account: Option<Option<nat>>)
      ensures this.account == account && lists == map[]
    {
      this.account := account;
      lists := map[];
    }

    /** `HideNode.render` for the entries `es` of a transaction: filters
        only when an account is known, the transaction does not have exactly
        two entries and the viewer is not an admin; stores the list under
        `name` and renders as the empty string. */
    method Render(name: string, es: seq<TxEntry>, isAdmin: bool, viewerAccount: Option<nat>)
      returns (r: Result<string, TagError>)
      modifies this
      ensures var acc := ResolveAccount(isAdmin, old(account), viewerAccount);
        if acc.Err? then r == Err(DoesNotExist) && account == old(account) && lists == old(lists)
        else
          r == Ok("")
          && account == (if old(account).None? && !isAdmin then Some(acc.value) else old(account))
          && lists == old(lists)[name :=
               if acc.value.Some? && |es| != 2 && !isAdmin
               then Hidden(es, acc.value.value, UserCredit(es, acc.value.value))
               else AllShown(es)]
    {
      var acc: Option<nat> := None;
      if account.Some? {
        acc := account.value;
      } else if !isAdmin {
        if viewerAccount.None? {
          return Err(DoesNotExist);
        }
        acc := viewerAccount;
        account := Some(acc);
      }
      var entryList := AllShown(es);
      if acc.Some? && |es| != 2 && !isAdmin {
        entryList := FilterEntries(es, acc.value);
      }
      lists := lists[name := entryList];
      r := Ok("");
    }
  }
}
