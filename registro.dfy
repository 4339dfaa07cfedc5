/**
 * The sign-up form: its fields, the error shown above it, and the submit and
 * Google handlers. The identity provider is outside the model; each handler is
 * given the outcome of its call (success, or a failure carrying an optional code).
 */
module Registro {
  import opened Js
  import opened Records

  /** How a call to the identity provider ended. */
  datatype AuthResult = AuthOk | AuthFailed(code: Option<string>)

  /** What `register` is called with. */
  datatype RegisterRequest = RegisterRequest(email: string, password: string, username: string, avatarFile: Option<File>)

  const EmailInUse: string := "Este correo ya está registrado."
  const InvalidEmail: string := "El correo no es válido."
  const WeakPassword: string := "La contraseña es muy débil (mínimo 6 caracteres)."
  const GenericError: string := "Ocurrió un error. Intenta nuevamente."

  /**
   * `traducirError`: three provider codes have messages of their own; every other
   * code, and a missing one, gets the generic retry message.
   */
  function TraducirError(code: Option<string>): (msg: string)
    ensures code == Some("auth/email-already-in-use") ==> msg == EmailInUse
    ensures code == Some("auth/invalid-email") ==> msg == InvalidEmail
    ensures code == Some("auth/weak-password") ==> msg == WeakPassword
    ensures msg == GenericError <==>
      code !in {Some("auth/email-already-in-use"), Some("auth/invalid-email"), Some("auth/weak-password")}
    ensures msg != ""
  {
    match code
    case Some("auth/email-already-in-use") => EmailInUse
    case Some("auth/invalid-email") => InvalidEmail
    case Some("auth/weak-password") => WeakPassword
    case _ => GenericError
  }

  /** Different recognised codes never share a message, so the message tells the code back. */
  lemma TraducirErrorInjectiveOnKnown(a: Option<string>, b: Option<string>)
    requires TraducirError(a) == TraducirError(b) && TraducirError(a) != GenericError
    ensures a == b
  {
  }

  /** `e.target.files?.[0] || null`: the first chosen file, or none when nothing was chosen. */
  function ChosenFile(files: Option<seq<File>>): (r: Option<File>)
    ensures r.None? <==> files.None? || files.value == []
    ensures r.Some? ==> r.value == files.value[0]
  {
    if files.Some? && |files.value| > 0 then Some(files.value[0]) else None
  }

  class RegistroForm {
    var username: string
    var avatarFile: Option<File>
    var email: string
    var password: string
    var error: string

    constructor ()
      ensures username == "" && avatarFile.None? && email == "" && password == "" && error == ""
    {
      username := "";
      avatarFile := None;
      email := "";
      password := "";
      error := "";
    }

    /**
     * `handleSubmit`: the error is cleared, `register` is called with the form's
     * values, and afterwards the error is empty on success or the translated
     * message on failure. `ok` tells whether the success callback runs.
     */
    method HandleSubmit(result: AuthResult) returns (request: RegisterRequest, ok: bool)
      modifies this
      ensures request == RegisterRequest(email, password, username, avatarFile)
      ensures ok <==> result.AuthOk?
      ensures ok ==> error == ""
      ensures !ok ==> error == TraducirError(result.code) && error != ""
      ensures username == old(username) && avatarFile == old(avatarFile)
      ensures email == old(email) && password == old(password)
    {
      error := "";
      request := RegisterRequest(email, password, username, avatarFile);
      ok := result.AuthOk?;
      if !ok {
        error := TraducirError(result.code);
      }
    }

    /** `handleGoogle`: the same clearing and translation around the Google sign-in. */
    method HandleGoogle(result: AuthResult) returns (ok: bool)
      modifies this
      ensures ok <==> result.AuthOk?
      ensures ok ==> error == ""
      ensures !ok ==> error == TraducirError(result.code) && error != ""
      ensures username == old(username) && avatarFile == old(avatarFile)
      ensures email == old(email) && password == old(password)
    {
      error := "";
      ok := result.AuthOk?;
      if !ok {
        error := TraducirError(result.code);
      }
    }

    /** Typing in the user name field. */
    method SetUsername(value: string)
      modifies this
      ensures username == value
      ensures avatarFile == old(avatarFile) && email == old(email)
      ensures password == old(password) && error == old(error)
    {
      username := value;
    }

    /** Typing in the e-mail field. */
    method SetEmail(value: string)
      modifies this
      ensures email == value
      ensures username == old(username) && avatarFile == old(avatarFile)
      ensures password == old(password) && error == old(error)
    {
      email := value;
    }

    /** Typing in the password field. */
    method SetPassword(value: string)
      modifies this
      ensures password == value
      ensures username == old(username) && avatarFile == old(avatarFile)
      ensures email == old(email) && error == old(error)
    {
      password := value;
    }

    /** `handleAvatarChange`: the chosen file becomes the avatar; choosing none clears it. */
    method HandleAvatarChange(files: Option<seq<File>>)
      modifies this
      ensures avatarFile == ChosenFile(files)
      ensures username == old(username) && email == old(email)
      ensures password == old(password) && error == old(error)
    {
      avatarFile := ChosenFile(files);
    }
  }
}
