/** The login page: the user record created on first sign-in, the check of
    the session route's answer, and the messages shown when sign-up,
    e-mail login or Google sign-in fails. Firebase Auth, `getIdToken` and
    `fetch` are oracles: their outcomes are parameters. */
module Login {
  import opened Common
  import opened Firestore

  // ---------------------------------------------------------------------
  // The user record
  // ---------------------------------------------------------------------

  /** The record `saveUserToFirestore` creates. */
  function NewUserDoc(user: AuthUser, now: int): Document {
    map["uid" := Str(user.uid), "email" := StrOrNull(user.email),
        "displayName" := StrOrNull(user.displayName), "photoURL" := StrOrNull(user.photoURL),
        "createdAt" := Timestamp(now), "role" := Str("user")]
  }

  /** A new record holds exactly uid, email, displayName, photoURL,
      createdAt and the role "user", absent properties as null. */
  lemma NewUserDocFields(user: AuthUser, now: int)
    ensures NewUserDoc(user, now).Keys == {"uid", "email", "displayName", "photoURL", "createdAt", "role"}
    ensures var doc := NewUserDoc(user, now);
            doc["uid"] == Str(user.uid) && doc["role"] == Str("user") && doc["createdAt"] == Timestamp(now)
            && doc["email"] == StrOrNull(user.email)
            && doc["displayName"] == StrOrNull(user.displayName)
            && doc["photoURL"] == StrOrNull(user.photoURL)
  {
  }

  /** `saveUserToFirestore`: read the user's record and create it only when
      it does not exist. `backendError` is the error the read or the write
      throws, if any; then nothing is written and the error is passed on. */
  method SaveUserToFirestore(db: Store, user: AuthUser, now: int, backendError: Option<ErrorValue>)
    returns (error: Option<ErrorValue>)
    modifies db
    ensures error == backendError
    ensures backendError.Some? ==> db.docs == old(db.docs)
    ensures backendError.None? ==> db.docs == CreatedIfAbsent(old(db.docs), UserDocPath(user.uid), NewUserDoc(user, now))
  {
    if backendError.Some? {
      return backendError;
    }
    var userRef := UserDocPath(user.uid);
    var found := db.Exists(userRef);
    if !found {
      db.SetDoc(userRef, NewUserDoc(user, now));
    }
    return None;
  }

  /** A second sign-in keeps the record of the first: its `createdAt` and
      every other field stay as they were written. */
  lemma SecondSaveKeepsFirstRecord(docs: map<Path, Document>, user: AuthUser, first: int, second: int)
    ensures var once := CreatedIfAbsent(docs, UserDocPath(user.uid), NewUserDoc(user, first));
            CreatedIfAbsent(once, UserDocPath(user.uid), NewUserDoc(user, second)) == once
    ensures UserDocPath(user.uid) !in docs ==>
            CreatedIfAbsent(docs, UserDocPath(user.uid), NewUserDoc(user, first))[UserDocPath(user.uid)]["createdAt"]
            == Timestamp(first)
  {
    CreateIfAbsentIdempotent(docs, UserDocPath(user.uid), NewUserDoc(user, first), NewUserDoc(user, second));
  }

  // ---------------------------------------------------------------------
  // The session request
  // ---------------------------------------------------------------------

  /** The answer of `POST /api/auth/session`: `response.ok` and the
      `message` of its JSON body (None when the body is not JSON or has no
      message). */
  datatype SessionReply = SessionReply(ok: bool, message: Option<string>)

  const SessionFallback := "Falha ao criar a sessão do servidor."

  /** `handleAuthSuccess`: None when the session was created; otherwise the
      error it throws. `request` is the outcome of `getIdToken` and `fetch`
      (their own thrown error, or the reply). A reply that is not ok throws
      an `Error` whose message is the server's, or the fixed fallback. */
  function AuthSuccessError(request: Result<SessionReply, ErrorValue>): (error: Option<ErrorValue>)
    ensures request.Failure? ==> error == Some(request.error)
    ensures request.Success? ==> (error.None? <==> request.value.ok)
    ensures request.Success? && !request.value.ok ==>
      error.value.code == "" && error.value.message != ""
      && (Truthy(request.value.message) ==> error.value.message == request.value.message.value)
      && (!Truthy(request.value.message) ==> error.value.message == SessionFallback)
  {
    match request
    case Failure(e) => Some(e)
    case Success(reply) =>
      if reply.ok then None else Some(ErrorValue("", OrElse(reply.message, SessionFallback)))
  }

  // ---------------------------------------------------------------------
  // Failure messages
  // ---------------------------------------------------------------------

  const UnknownError := "Ocorreu um erro desconhecido. Tente novamente."
  const EmailInUse := "Este e-mail já está em uso por outra conta."
  const WeakPassword := "A senha é muito fraca. Por favor, escolha uma senha mais forte."
  const InvalidCredentials := "Email ou senha inválidos. Por favor, verifique e tente novamente."
  const GoogleFailure := "Não foi possível fazer login com o Google. Tente novamente."

  /** The description of a failed sign-up. A coded error is described only
      by its code: two codes have their own text, every other code the
      default, even when the error carries a message. */
  function SignUpDescription(error: ErrorValue): (description: string)
    ensures error.code == "auth/email-already-in-use" ==> description == EmailInUse
    ensures error.code == "auth/weak-password" ==> description == WeakPassword
    ensures error.code != "" ==> description in {EmailInUse, WeakPassword, UnknownError}
    ensures error.code != "" && error.code != "auth/email-already-in-use" && error.code != "auth/weak-password"
            ==> description == UnknownError
    ensures error.code == "" && error.message != "" ==> description == error.message
    ensures error.code == "" && error.message == "" ==> description == UnknownError
  {
    var description := UnknownError;
    if error.code != "" then
      if error.code == "auth/email-already-in-use" then EmailInUse
      else if error.code == "auth/weak-password" then WeakPassword
      else description
    else if error.message != "" then error.message
    else description
  }

  /** The description of a failed login: the three credential codes share
      one text, other codes get the default, an uncoded error its message. */
  function LoginDescription(error: ErrorValue): (description: string)
    ensures error.code in {"auth/user-not-found", "auth/wrong-password", "auth/invalid-credential"}
            ==> description == InvalidCredentials
    ensures error.code != "" ==> description in {InvalidCredentials, UnknownError}
    ensures error.code != "" && error.code !in {"auth/user-not-found", "auth/wrong-password", "auth/invalid-credential"}
            ==> description == UnknownError
    ensures error.code == "" && error.message != "" ==> description == error.message
    ensures error.code == "" && error.message == "" ==> description == UnknownError
  {
    var description := UnknownError;
    if error.code != "" then
      if error.code == "auth/user-not-found" || error.code == "auth/wrong-password"
         || error.code == "auth/invalid-credential"
      then InvalidCredentials
      else description
    else if error.message != "" then error.message
    else description
  }

  /** A session refusal reaches the user as the server's message (or the
      fallback) on both forms: the error `handleAuthSuccess` throws has no
      code. */
  lemma SessionRefusalShown(reply: SessionReply)
    requires !reply.ok
    ensures var e := AuthSuccessError(Success(reply)).value;
            SignUpDescription(e) == OrElse(reply.message, SessionFallback)
            && LoginDescription(e) == OrElse(reply.message, SessionFallback)
  {
  }

  // ---------------------------------------------------------------------
  // The page
  // ---------------------------------------------------------------------

  const SignUpSucceeded := Toast("Conta Criada com Sucesso!", "Seja bem-vindo(a) ao Vitalize.", false)
  const LoginSucceeded := Toast("Login bem-sucedido!", "Bem-vindo(a) de volta.", false)
  const GoogleSucceeded := Toast("Login com Google bem-sucedido!", "Bem-vindo(a) de volta.", false)

  function SignUpFailed(error: ErrorValue): Toast {
    Toast("Erro ao Criar Conta", SignUpDescription(error), true)
  }

  function LoginFailed(error: ErrorValue): Toast {
    Toast("Erro de Autenticação", LoginDescription(error), true)
  }

  const GoogleFailed := Toast("Erro com Google Sign-In", GoogleFailure, true)

  /** The first error of a sign-in that creates the user record: the auth
      call, then the record's read or write, then the session request. */
  function SignInError(auth: Result<AuthUser, ErrorValue>, backendError: Option<ErrorValue>,
                       request: Result<SessionReply, ErrorValue>): (error: Option<ErrorValue>)
    ensures error.None? <==> auth.Success? && backendError.None? && AuthSuccessError(request).None?
    ensures auth.Failure? ==> error == Some(auth.error)
    ensures auth.Success? && backendError.Some? ==> error == backendError
  {
    if auth.Failure? then Some(auth.error)
    else if backendError.Some? then backendError
    else AuthSuccessError(request)
  }

  /** The steps `handleSignUp` and `handleGoogleSignIn` share: the account
      call's outcome, then the record, then the session; the first error
      stops them and the record is written only after a successful account
      call whose read and write succeed. */
  method CompleteSignIn(db: Store, auth: Result<AuthUser, ErrorValue>, now: int,
                        backendError: Option<ErrorValue>, request: Result<SessionReply, ErrorValue>)
    returns (error: Option<ErrorValue>)
    modifies db
    ensures error == SignInError(auth, backendError, request)
    ensures auth.Success? && backendError.None? ==>
      db.docs == CreatedIfAbsent(old(db.docs), UserDocPath(auth.value.uid), NewUserDoc(auth.value, now))
    ensures !(auth.Success? && backendError.None?) ==> db.docs == old(db.docs)
  {
    match auth {
      case Failure(e) =>
        error := Some(e);
      case Success(user) =>
        error := SaveUserToFirestore(db, user, now, backendError);
        if error.None? {
          error := AuthSuccessError(request);
        }
    }
  }

  /** The page's state. `loadingLog` and `googleLoadingLog` record every
      `setIsLoading` and `setIsGoogleLoading` call, `navigations` every
      `router.push`. */
  class LoginPage {
    var email: string
    var password: string
    var isLoading: bool
    var isGoogleLoading: bool
    var loadingLog: seq<bool>
    var googleLoadingLog: seq<bool>
    var toasts: seq<Toast>
    var navigations: seq<string>

    constructor()
      ensures email == "" && password == "" && !isLoading && !isGoogleLoading
      ensures loadingLog == [] && googleLoadingLog == [] && toasts == [] && navigations == []
    {
      email, password := "", "";
      isLoading, isGoogleLoading := false, false;
      loadingLog, googleLoadingLog, toasts, navigations := [], [], [], [];
    }

    /** `handleSignUp`: create the account, save its record, open the
        session; success toasts and goes home, any failure toasts its
        description and stays. Loading ends false either way. */
    method HandleSignUp(db: Store, auth: Result<AuthUser, ErrorValue>, now: int,
                        backendError: Option<ErrorValue>, request: Result<SessionReply, ErrorValue>)
      modifies this, db
      ensures loadingLog == old(loadingLog) + [true, false] && !isLoading
      ensures isGoogleLoading == old(isGoogleLoading) && googleLoadingLog == old(googleLoadingLog)
      ensures email == old(email) && password == old(password)
      ensures auth.Success? && backendError.None? ==>
        db.docs == CreatedIfAbsent(old(db.docs), UserDocPath(auth.value.uid), NewUserDoc(auth.value, now))
      ensures !(auth.Success? && backendError.None?) ==> db.docs == old(db.docs)
      ensures var error := SignInError(auth, backendError, request);
        (error.None? ==> toasts == old(toasts) + [SignUpSucceeded] && navigations == old(navigations) + ["/"])
        && (error.Some? ==> toasts == old(toasts) + [SignUpFailed(error.value)] && navigations == old(navigations))
    {
      isLoading := true;
      loadingLog := loadingLog + [true];
      var error := CompleteSignIn(db, auth, now, backendError, request);
      if error.None? {
        toasts := toasts + [SignUpSucceeded];
        navigations := navigations + ["/"];
      } else {
        toasts := toasts + [SignUpFailed(error.value)];
      }
      isLoading := false;
      loadingLog := loadingLog + [false];
    }

    /** `handleLogin`: sign in and open the session; no record is written. */
    method HandleLogin(auth: Result<AuthUser, ErrorValue>, request: Result<SessionReply, ErrorValue>)
      modifies this
      ensures loadingLog == old(loadingLog) + [true, false] && !isLoading
      ensures isGoogleLoading == old(isGoogleLoading) && googleLoadingLog == old(googleLoadingLog)
      ensures email == old(email) && password == old(password)
      ensures var error := SignInError(auth, None, request);
        (error.None? ==> toasts == old(toasts) + [LoginSucceeded] && navigations == old(navigations) + ["/"])
        && (error.Some? ==> toasts == old(toasts) + [LoginFailed(error.value)] && navigations == old(navigations))
    {
      isLoading := true;
      loadingLog := loadingLog + [true];
      var error: Option<ErrorValue>;
      match auth {
        case Failure(e) =>
          error := Some(e);
        case Success(_) =>
          error := AuthSuccessError(request);
      }
      if error.None? {
        toasts := toasts + [LoginSucceeded];
        navigations := navigations + ["/"];
      } else {
        toasts := toasts + [LoginFailed(error.value)];
      }
      isLoading := false;
      loadingLog := loadingLog + [false];
    }

    /** `handleGoogleSignIn`: the popup, the record and the session as in
        sign-up; every failure shows the one fixed Google message. */
    method HandleGoogleSignIn(db: Store, popup: Result<AuthUser, ErrorValue>, now: int,
                              backendError: Option<ErrorValue>, request: Result<SessionReply, ErrorValue>)
      modifies this, db
      ensures googleLoadingLog == old(googleLoadingLog) + [true, false] && !isGoogleLoading
      ensures isLoading == old(isLoading) && loadingLog == old(loadingLog)
      ensures email == old(email) && password == old(password)
      ensures popup.Success? && backendError.None? ==>
        db.docs == CreatedIfAbsent(old(db.docs), UserDocPath(popup.value.uid), NewUserDoc(popup.value, now))
      ensures !(popup.Success? && backendError.None?) ==> db.docs == old(db.docs)
      ensures var error := SignInError(popup, backendError, request);
        (error.None? ==> toasts == old(toasts) + [GoogleSucceeded] && navigations == old(navigations) + ["/"])
        && (error.Some? ==> toasts == old(toasts) + [GoogleFailed] && navigations == old(navigations))
    {
      isGoogleLoading := true;
      googleLoadingLog := googleLoadingLog + [true];
      var error := CompleteSignIn(db, popup, now, backendError, request);
      if error.None? {
        toasts := toasts + [GoogleSucceeded];
        navigations := navigations + ["/"];
      } else {
        toasts := toasts + [GoogleFailed];
      }
      isGoogleLoading := false;
      googleLoadingLog := googleLoadingLog + [false];
    }
  }
}
