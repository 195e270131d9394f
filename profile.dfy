/** The profile page: the rules of its two forms, the merge of the edited
    name and photo into the user record, and the password change with its
    error text. Firebase Auth's `updateProfile`, reauthentication and
    `updatePassword` are oracles whose thrown errors are parameters; zod's
    URL test is the parameter `isUrl`. */
module Profile {
  import opened Common
  import opened Firestore

  // ---------------------------------------------------------------------
  // Form rules
  // ---------------------------------------------------------------------

  const DisplayNameMessage := "O nome deve ter pelo menos 2 caracteres."
  const PhotoUrlMessage := "Por favor, insira uma URL válida."
  const CurrentPasswordMessage := "A senha atual é obrigatória."
  const NewPasswordMessage := "A nova senha deve ter pelo menos 6 caracteres."
  const MismatchMessage := "As novas senhas não correspondem."

  /** `profileFormSchema`: both fields optional; a given name needs two
      characters, a given photo must be a URL or the empty string (a
      failing union reports the URL branch's message). */
  function ProfileIssues(displayName: Option<string>, photoURL: Option<string>, isUrl: string -> bool): (r: seq<Issue>)
    ensures r == [] <==> (displayName.Some? ==> |displayName.value| >= 2)
                         && (photoURL.Some? ==> photoURL.value == "" || isUrl(photoURL.value))
    ensures Issue("displayName", DisplayNameMessage) in r <==> displayName.Some? && |displayName.value| < 2
    ensures Issue("photoURL", PhotoUrlMessage) in r <==>
            photoURL.Some? && photoURL.value != "" && !isUrl(photoURL.value)
    ensures displayName.None? && photoURL.None? ==> r == []
  {
    (if displayName.Some? && |displayName.value| < 2 then [Issue("displayName", DisplayNameMessage)] else [])
    + (if photoURL.Some? && photoURL.value != "" && !isUrl(photoURL.value)
       then [Issue("photoURL", PhotoUrlMessage)] else [])
  }

  /** `passwordFormSchema`: the length rules of the fields and then the
      refinement, which runs even when a length rule failed, so every
      broken rule is reported; a mismatch is reported on confirmPassword. */
  function PasswordIssues(currentPassword: string, newPassword: string, confirmPassword: string): (r: seq<Issue>)
    ensures r == [] <==> |currentPassword| >= 1 && |newPassword| >= 6 && newPassword == confirmPassword
    ensures Issue("currentPassword", CurrentPasswordMessage) in r <==> currentPassword == ""
    ensures Issue("newPassword", NewPasswordMessage) in r <==> |newPassword| < 6
    ensures Issue("confirmPassword", MismatchMessage) in r <==> newPassword != confirmPassword
    ensures forall i :: 0 <= i < |r| ==> r[i].path in {"currentPassword", "newPassword", "confirmPassword"}
  {
    (if |currentPassword| < 1 then [Issue("currentPassword", CurrentPasswordMessage)] else [])
    + (if |newPassword| < 6 then [Issue("newPassword", NewPasswordMessage)] else [])
    + (if newPassword != confirmPassword then [Issue("confirmPassword", MismatchMessage)] else [])
  }

  /** The form is filled with "" for a missing name, and "" is a given
      name shorter than two characters: a user without a profile name
      cannot save the form (not even a new photo) without typing one. */
  lemma ResetNameNeedsEditing(user: AuthUser, photo: string, isUrl: string -> bool)
    requires !Truthy(user.displayName)
    ensures Issue("displayName", DisplayNameMessage)
            in ProfileIssues(Some(OrElse(user.displayName, "")), Some(photo), isUrl)
  {
  }

  const WrongPassword := "A senha atual está incorreta."
  const PasswordChangeFailed := "Ocorreu um erro. Tente novamente."

  /** The description of a failed password change. */
  function PasswordErrorDescription(error: ErrorValue): (description: string)
    ensures description == WrongPassword <==> error.code == "auth/wrong-password"
    ensures description == PasswordChangeFailed <==> error.code != "auth/wrong-password"
  {
    if error.code == "auth/wrong-password" then WrongPassword else PasswordChangeFailed
  }

  // ---------------------------------------------------------------------
  // The merge into the user record
  // ---------------------------------------------------------------------

  /** The fields `handleProfileUpdate` merges: the name and the photo. */
  function ProfileFields(displayName: string, photoURL: string): (fields: Document)
    ensures fields.Keys == {"displayName", "photoURL"}
    ensures fields["displayName"] == Str(displayName) && fields["photoURL"] == Str(photoURL)
  {
    map["displayName" := Str(displayName), "photoURL" := Str(photoURL)]
  }

  /** The merge rewrites the name and the photo and nothing else: the
      record's other fields (uid, email, createdAt, role) and every other
      document keep their values. */
  lemma ProfileMergeKeepsRecord(docs: map<Path, Document>, uid: string, displayName: string, photoURL: string)
    requires UserDocPath(uid) in docs
    ensures var r := Merged(docs, UserDocPath(uid), ProfileFields(displayName, photoURL));
      && r.Keys == docs.Keys
      && r[UserDocPath(uid)].Keys == docs[UserDocPath(uid)].Keys + {"displayName", "photoURL"}
      && r[UserDocPath(uid)]["displayName"] == Str(displayName)
      && r[UserDocPath(uid)]["photoURL"] == Str(photoURL)
      && (forall f :: f in docs[UserDocPath(uid)] && f != "displayName" && f != "photoURL" ==>
            r[UserDocPath(uid)][f] == docs[UserDocPath(uid)][f])
      && (forall p :: p in docs && p != UserDocPath(uid) ==> r[p] == docs[p])
  {
    var fields := ProfileFields(displayName, photoURL);
    var r := Merged(docs, UserDocPath(uid), fields);
    assert docs.Keys + {UserDocPath(uid)} == docs.Keys;
    forall f | f in docs[UserDocPath(uid)] && f != "displayName" && f != "photoURL"
      ensures r[UserDocPath(uid)][f] == docs[UserDocPath(uid)][f]
    {
      assert f !in fields;
    }
  }

  // ---------------------------------------------------------------------
  // The page
  // ---------------------------------------------------------------------

  const ProfileSaved := Toast("Sucesso!", "Seu perfil foi atualizado.", false)
  const PasswordChanged := Toast("Sucesso!", "Sua senha foi alterada.", false)

  function ProfileFailed(error: ErrorValue): Toast {
    Toast("Erro ao Atualizar Perfil", error.message, true)
  }

  function PasswordFailed(error: ErrorValue): Toast {
    Toast("Erro ao Alterar Senha", PasswordErrorDescription(error), true)
  }

  /** The first of two errors thrown in sequence. */
  function FirstError(first: Option<ErrorValue>, second: Option<ErrorValue>): (e: Option<ErrorValue>)
    ensures e.None? <==> first.None? && second.None?
    ensures first.Some? ==> e == first
  {
    if first.Some? then first else second
  }

  /** The page's state: the signed-in user, the two forms' fields, the
      loading flags with a log of their `set` calls, toasts and
      navigations. */
  class ProfilePage {
    var user: Option<AuthUser>
    var displayName: string
    var photoURL: string
    var currentPassword: string
    var newPassword: string
    var confirmPassword: string
    var isProfileLoading: bool
    var isPasswordLoading: bool
    var profileLoadingLog: seq<bool>
    var passwordLoadingLog: seq<bool>
    var toasts: seq<Toast>
    var navigations: seq<string>

    constructor()
      ensures user == None && !isProfileLoading && !isPasswordLoading
      ensures displayName == "" && photoURL == ""
      ensures currentPassword == "" && newPassword == "" && confirmPassword == ""
      ensures profileLoadingLog == [] && passwordLoadingLog == [] && toasts == [] && navigations == []
    {
      user := None;
      displayName, photoURL := "", "";
      currentPassword, newPassword, confirmPassword := "", "", "";
      isProfileLoading, isPasswordLoading := false, false;
      profileLoadingLog, passwordLoadingLog, toasts, navigations := [], [], [], [];
    }

    /** The `onAuthStateChanged` listener: a signed-in user fills the profile
        form (absent or empty values as ""); no user sends the page to
        /login. */
    method OnAuthStateChanged(current: Option<AuthUser>)
      modifies this
      ensures current.Some? ==> user == current && navigations == old(navigations)
      ensures current.Some? ==>
        displayName == OrElse(current.value.displayName, "") && photoURL == OrElse(current.value.photoURL, "")
      ensures current.None? ==> user == old(user) && displayName == old(displayName) && photoURL == old(photoURL)
      ensures current.None? ==> navigations == old(navigations) + ["/login"]
      ensures toasts == old(toasts) && currentPassword == old(currentPassword)
      ensures newPassword == old(newPassword) && confirmPassword == old(confirmPassword)
      ensures isProfileLoading == old(isProfileLoading) && profileLoadingLog == old(profileLoadingLog)
      ensures isPasswordLoading == old(isPasswordLoading) && passwordLoadingLog == old(passwordLoadingLog)
    {
      if current.Some? {
        user := current;
        displayName := OrElse(current.value.displayName, "");
        photoURL := OrElse(current.value.photoURL, "");
      } else {
        navigations := navigations + ["/login"];
      }
    }

    /** `handleProfileUpdate` on the submitted name and photo: nothing
        without a user; otherwise the auth profile update, then the merge
        into the user record; a thrown error is shown with its own message.
        `authError` and `writeError` are what those two calls throw. */
    method HandleProfileUpdate(db: Store, name: string, photo: string,
                               authError: Option<ErrorValue>, writeError: Option<ErrorValue>)
      modifies this, db
      ensures user == old(user) && displayName == old(displayName) && photoURL == old(photoURL)
      ensures currentPassword == old(currentPassword) && newPassword == old(newPassword)
      ensures confirmPassword == old(confirmPassword) && navigations == old(navigations)
      ensures isPasswordLoading == old(isPasswordLoading) && passwordLoadingLog == old(passwordLoadingLog)
      ensures user.None? ==>
        db.docs == old(db.docs) && toasts == old(toasts)
        && isProfileLoading == old(isProfileLoading) && profileLoadingLog == old(profileLoadingLog)
      ensures user.Some? ==> profileLoadingLog == old(profileLoadingLog) + [true, false] && !isProfileLoading
      ensures user.Some? && FirstError(authError, writeError).None? ==>
        db.docs == Merged(old(db.docs), UserDocPath(user.value.uid), ProfileFields(name, photo))
        && toasts == old(toasts) + [ProfileSaved]
      ensures user.Some? && FirstError(authError, writeError).Some? ==>
        db.docs == old(db.docs) && toasts == old(toasts) + [ProfileFailed(FirstError(authError, writeError).value)]
    {
      if user.None? {
        return;
      }
      isProfileLoading := true;
      profileLoadingLog := profileLoadingLog + [true];
      var error := FirstError(authError, writeError);
      if error.None? {
        db.SetDocMerge(UserDocPath(user.value.uid), ProfileFields(name, photo));
        toasts := toasts + [ProfileSaved];
      } else {
        toasts := toasts + [ProfileFailed(error.value)];
      }
      isProfileLoading := false;
      profileLoadingLog := profileLoadingLog + [false];
    }

    /** `handlePasswordUpdate`: nothing without a user or without an
        e-mail; otherwise reauthenticate, then change the password. Success
        clears the three password fields; failure keeps them and shows the
        mapped description. `reauthError` and `updateError` are what the two
        calls throw. */
    method HandlePasswordUpdate(reauthError: Option<ErrorValue>, updateError: Option<ErrorValue>)
      modifies this
      ensures user == old(user) && displayName == old(displayName) && photoURL == old(photoURL)
      ensures navigations == old(navigations)
      ensures isProfileLoading == old(isProfileLoading) && profileLoadingLog == old(profileLoadingLog)
      ensures !(user.Some? && Truthy(user.value.email)) ==>
        toasts == old(toasts) && isPasswordLoading == old(isPasswordLoading)
        && passwordLoadingLog == old(passwordLoadingLog)
        && currentPassword == old(currentPassword) && newPassword == old(newPassword)
        && confirmPassword == old(confirmPassword)
      ensures user.Some? && Truthy(user.value.email) ==>
        passwordLoadingLog == old(passwordLoadingLog) + [true, false] && !isPasswordLoading
      ensures user.Some? && Truthy(user.value.email) && FirstError(reauthError, updateError).None? ==>
        toasts == old(toasts) + [PasswordChanged]
        && currentPassword == "" && newPassword == "" && confirmPassword == ""
      ensures user.Some? && Truthy(user.value.email) && FirstError(reauthError, updateError).Some? ==>
        toasts == old(toasts) + [PasswordFailed(FirstError(reauthError, updateError).value)]
        && currentPassword == old(currentPassword) && newPassword == old(newPassword)
        && confirmPassword == old(confirmPassword)
    {
      if user.None? || !Truthy(user.value.email) {
        return;
      }
      isPasswordLoading := true;
      passwordLoadingLog := passwordLoadingLog + [true];
      var error := FirstError(reauthError, updateError);
      if error.None? {
        toasts := toasts + [PasswordChanged];
        currentPassword, newPassword, confirmPassword := "", "", "";
      } else {
        toasts := toasts + [PasswordFailed(error.value)];
      }
      isPasswordLoading := false;
      passwordLoadingLog := passwordLoadingLog + [false];
    }
  }
}
