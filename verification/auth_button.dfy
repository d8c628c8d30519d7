/** The header's account control, driven by the session provider's
    `loading` flag and current user. */
module AuthButton {
  import opened Wrappers
  import opened Session

  datatype Control = LoadingButton | AccountMenu | LoginLink(target: string)

  /** The loading flag is checked first: while the session is still being
      restored a disabled button is shown even when a user is already
      known. */
  function Decide(loading: bool, user: Option<User>): (c: Control)
    ensures c == LoadingButton <==> loading
    ensures c == AccountMenu <==> !loading && user.Some?
    ensures c.LoginLink? <==> !loading && user == None
    ensures c.LoginLink? ==> c.target == "/auth"
  {
    if loading then LoadingButton
    else if user.Some? then AccountMenu
    else LoginLink("/auth")
  }

  /** Once loading ends, the control depends only on whether a user is
      present, not on which one. */
  lemma DecideIgnoresWhichUser(u: User, v: User)
    ensures Decide(false, Some(u)) == Decide(false, Some(v))
    ensures Decide(true, Some(u)) == Decide(true, None)
  {
  }
}
