/** The user card of the dashboard: the name, handle, avatar letter and
    photo shown for the signed-in user, each falling back when a field of
    the Firebase user is absent or empty. `toUpperCase` is modelled on
    ASCII letters only. */
module UserProfile {
  import opened Common

  const DefaultName := "Usuário"
  const DefaultUserName := "usuario"
  const DefaultPhoto := "https://picsum.photos/100"

  /** `s.split('@')[0]`: the text before the first '@', or all of `s`. */
  function LocalPart(s: string): (r: string)
    ensures |r| <= |s| && r == s[..|r|]
    ensures '@' !in r
    ensures |r| < |s| ==> s[|r|] == '@'
  {
    if s == [] || s[0] == '@' then [] else [s[0]] + LocalPart(s[1..])
  }

  /** `user?.email?.split('@')[0]`, absent when there is no user or no
      e-mail. */
  function EmailLocalPart(user: Option<AuthUser>): (r: Option<string>)
    ensures r.Some? <==> user.Some? && user.value.email.Some?
    ensures r.Some? ==> r.value == LocalPart(user.value.email.value)
  {
    if user.Some? && user.value.email.Some? then Some(LocalPart(user.value.email.value)) else None
  }

  function DisplayNameOf(user: Option<AuthUser>): Option<string> {
    if user.Some? then user.value.displayName else None
  }

  /** `user?.displayName || user?.email?.split('@')[0] || "Usuário"`: the
      first non-empty of the profile name and the e-mail's local part,
      else the default. Never empty. */
  function DisplayName(user: Option<AuthUser>): (name: string)
    ensures name != ""
    ensures Truthy(DisplayNameOf(user)) ==> name == user.value.displayName.value
    ensures !Truthy(DisplayNameOf(user)) && Truthy(EmailLocalPart(user)) ==> name == EmailLocalPart(user).value
    ensures !Truthy(DisplayNameOf(user)) && !Truthy(EmailLocalPart(user)) ==> name == DefaultName
  {
    OrElse(DisplayNameOf(user), OrElse(EmailLocalPart(user), DefaultName))
  }

  /** `user?.email?.split('@')[0] || "usuario"`. Never empty. */
  function UserName(user: Option<AuthUser>): (name: string)
    ensures name != ""
    ensures Truthy(EmailLocalPart(user)) ==> name == EmailLocalPart(user).value
    ensures !Truthy(EmailLocalPart(user)) ==> name == DefaultUserName
  {
    OrElse(EmailLocalPart(user), DefaultUserName)
  }

  /** The handle `@{userName}`. */
  function Handle(user: Option<AuthUser>): (handle: string)
    ensures |handle| >= 2 && handle[0] == '@' && handle[1..] == UserName(user)
  {
    "@" + UserName(user)
  }

  /** `displayName.charAt(0).toUpperCase()`: always exactly one character,
      the upper-cased first letter of the shown name. */
  function AvatarInitial(user: Option<AuthUser>): (initial: string)
    ensures |initial| == 1 && initial[0] == ToUpperAscii(DisplayName(user)[0])
  {
    [ToUpperAscii(DisplayName(user)[0])]
  }

  /** `user?.photoURL || "https://picsum.photos/100"`. */
  function Photo(user: Option<AuthUser>): (url: string)
    ensures user.Some? && Truthy(user.value.photoURL) ==> url == user.value.photoURL.value
    ensures !(user.Some? && Truthy(user.value.photoURL)) ==> url == DefaultPhoto
  {
    OrElse(if user.Some? then user.value.photoURL else None, DefaultPhoto)
  }

  /** Without a profile name, the card's title and handle name the same
      person: the title is the handle without its '@' whenever the e-mail's
      local part is non-empty, and otherwise the two defaults differ only
      in the accent. */
  lemma NameAndHandleAgree(user: Option<AuthUser>)
    requires !Truthy(DisplayNameOf(user))
    ensures Truthy(EmailLocalPart(user)) ==> Handle(user) == "@" + DisplayName(user)
    ensures !Truthy(EmailLocalPart(user)) ==> DisplayName(user) == DefaultName && UserName(user) == DefaultUserName
  {
  }

  /** The local part of an address with an '@' is what precedes the first
      '@', whatever follows it. */
  lemma {:induction false} LocalPartOfAddress(name: string, domain: string)
    requires '@' !in name
    ensures LocalPart(name + "@" + domain) == name
  {
    if name != [] {
      assert (name + "@" + domain)[1..] == name[1..] + "@" + domain;
      LocalPartOfAddress(name[1..], domain);
    } else {
      assert (name + "@" + domain)[0] == '@';
    }
  }
}
