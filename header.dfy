/** The dashboard header: the avatar and name of the signed-in user in the
    menu, and the sign-out sequence (sign out of Firebase Auth, then ask
    the session route to clear the cookie, then go to /login only when it
    answered ok). `signOut` and `fetch` are oracles. */
module Header {
  import opened Common
  import UserProfile
  import Session

  const DefaultInitial := "U"
  const DefaultMenuName := "Usuário"

  /** `auth.currentUser?.email?.charAt(0).toUpperCase() || 'U'`: the
      upper-cased first letter of the e-mail, or "U" without a user, an
      e-mail or with an empty one. Always one character. */
  function HeaderInitial(user: Option<AuthUser>): (initial: string)
    ensures |initial| == 1
    ensures user.Some? && Truthy(user.value.email) ==> initial[0] == ToUpperAscii(user.value.email.value[0])
    ensures !(user.Some? && Truthy(user.value.email)) ==> initial == DefaultInitial
  {
    if user.Some? && Truthy(user.value.email) then [ToUpperAscii(user.value.email.value[0])] else DefaultInitial
  }

  /** `auth.currentUser?.displayName || 'Usuário'`. */
  function MenuName(user: Option<AuthUser>): (name: string)
    ensures name != ""
    ensures user.Some? && Truthy(user.value.displayName) ==> name == user.value.displayName.value
    ensures !(user.Some? && Truthy(user.value.displayName)) ==> name == DefaultMenuName
  {
    OrElse(if user.Some? then user.value.displayName else None, DefaultMenuName)
  }

  /** The header takes its letter from the e-mail and the user card from
      the display name; for a user without a profile name whose e-mail
      starts with a letter before any '@', both avatars show the same
      letter, and the menu name is the card's default. */
  lemma InitialsAgreeWithoutProfileName(user: Option<AuthUser>)
    requires user.Some? && !Truthy(user.value.displayName)
    requires Truthy(user.value.email) && user.value.email.value[0] != '@'
    ensures HeaderInitial(user) == UserProfile.AvatarInitial(user)
    ensures MenuName(user) == UserProfile.DefaultName
  {
    var email := user.value.email.value;
    var local := UserProfile.LocalPart(email);
    assert |local| < |email| ==> email[|local|] == '@';
    assert local != [];
    assert local[0] == email[0];
  }

  /** What one press of "Sair" did. */
  datatype SignOutTrace = SignOutTrace(deleteSent: bool, navigations: seq<string>)

  /** `handleSignOut`: `signOutError` is what `signOut` throws; `reply` is
      the DELETE's response, or what `fetch` throws. Errors are only
      logged. */
  function SignOut(signOutError: Option<ErrorValue>, reply: Result<Session.Response, ErrorValue>): (t: SignOutTrace)
    ensures t.deleteSent <==> signOutError.None?
    ensures t.navigations == ["/login"] <==> signOutError.None? && reply.Success? && Session.Ok(reply.value)
    ensures t.navigations == [] <==> !(signOutError.None? && reply.Success? && Session.Ok(reply.value))
  {
    if signOutError.Some? then SignOutTrace(false, [])
    else if reply.Success? && Session.Ok(reply.value) then SignOutTrace(true, ["/login"])
    else SignOutTrace(true, [])
  }

  /** Against the session route itself, a successful sign-out always lands
      on /login. */
  lemma SignOutReachesLogin()
    ensures SignOut(None, Success(Session.Delete())).navigations == ["/login"]
  {
  }
}
