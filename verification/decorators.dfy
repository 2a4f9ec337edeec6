/**
 * The access-control wrappers of itkufs/common/decorators.py as decisions
 * over the keyword arguments a view receives.
 */
module Decorators {
  import opened Outcomes

  /** What a wrapper does: call the view, answer 403 Forbidden, or fail one
      of its `assert` statements. */
  datatype Decision = Proceed | Forbidden(message: string) | AssertionFailed

  /** The keyword arguments the wrappers look at; each is absent (None)
      when the view is not given it. `group` holds the owners of the
      group's accounts, and is absent too when the argument is not a Group. */
  datatype ViewArgs = ViewArgs(isAdmin: Option<bool>, group: Option<seq<Option<nat>>>, isOwner: Option<bool>)

  const NotMemberMessage := "Forbidden if not member of the group or group admin."
  const NotOwnerMessage := "Forbidden if not account owner or group admin."
  const NotAdminMessage := "Forbidden if not group admin."

  /** Whether `user` owns one of the accounts. */
  predicate OwnsAccount(owners: seq<Option<nat>>, user: nat)
  {
    exists i :: 0 <= i < |owners| && owners[i] == Some(user)
  }

  /** `limit_to_group`: admins pass; others must own an account in the group. */
  function LimitToGroup(args: ViewArgs, user: nat): (d: Decision)
    ensures d.Proceed? <==>
      args.isAdmin == Some(true) || (args.isAdmin == Some(false) && args.group.Some? && OwnsAccount(args.group.value, user))
    ensures d == AssertionFailed <==> args.isAdmin.None? || (args.isAdmin == Some(false) && args.group.None?)
    ensures d.Forbidden? ==> d.message == NotMemberMessage
  {
    if args.isAdmin.None? then AssertionFailed
    else if args.isAdmin.value then Proceed
    else if args.group.None? then AssertionFailed
    else if OwnsAccount(args.group.value, user) then Proceed
    else Forbidden(NotMemberMessage)
  }

  /** `limit_to_owner`: admins pass; others need a truthy `is_owner`. */
  function LimitToOwner(args: ViewArgs): (d: Decision)
    ensures d.Proceed? <==> args.isAdmin == Some(true) || (args.isAdmin == Some(false) && args.isOwner == Some(true))
    ensures d == AssertionFailed <==> args.isAdmin.None?
    ensures d.Forbidden? ==> d.message == NotOwnerMessage
  {
    if args.isAdmin.None? then AssertionFailed
    else if args.isAdmin.value then Proceed
    else if args.isOwner.Some? && args.isOwner.value then Proceed
    else Forbidden(NotOwnerMessage)
  }

  /** `limit_to_admin`: only admins pass. */
  function LimitToAdmin(args: ViewArgs): (d: Decision)
    ensures d.Proceed? <==> args.isAdmin == Some(true)
    ensures d == AssertionFailed <==> args.isAdmin.None?
    ensures d.Forbidden? ==> d.message == NotAdminMessage
  {
    if args.isAdmin.None? then AssertionFailed
    else if args.isAdmin.value then Proceed
    else Forbidden(NotAdminMessage)
  }

  /** `limit_to_admin` is the strictest: whoever it lets through, the other
      two let through as well; without `is_admin` all three fail. */
  lemma AdminIsStrictest(args: ViewArgs, user: nat)
    ensures LimitToAdmin(args).Proceed? ==> LimitToGroup(args, user).Proceed? && LimitToOwner(args).Proceed?
    ensures args.isAdmin.None? ==>
      LimitToGroup(args, user) == AssertionFailed && LimitToOwner(args) == AssertionFailed && LimitToAdmin(args) == AssertionFailed
  {
  }
}
