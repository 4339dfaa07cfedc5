/**
 * The profile page: a form prefilled from the signed-in user, edited field by
 * field, and saved through two abstract remote calls (profile data, then the new
 * avatar when one was picked). Saving is asynchronous, so it is modelled as a
 * start (`HandleSubmit`) and a completion (`FinishSubmit`) that receives the
 * outcome of each call.
 */
module Dashboard {
  import opened Js
  import opened JsString
  import opened Records

  /** The form's inputs, by their `name` attribute. */
  datatype Field = Nombre | Apellido | Email | FechaNacimiento | Celular | CineFavorito | Genero

  datatype FormData = FormData(
    nombre: string,
    apellido: string,
    email: string,
    fechaNacimiento: string,
    celular: string,
    cineFavorito: string,
    genero: string)

  const EmptyForm: FormData := FormData("", "", "", "", "", "", "")

  const SuccessMessage: string := "✅ ¡Datos actualizados con éxito!"
  const ErrorMessage: string := "❌ Error al actualizar los datos. Inténtalo de nuevo."

  function Get(d: FormData, f: Field): string
  {
    match f
    case Nombre => d.nombre
    case Apellido => d.apellido
    case Email => d.email
    case FechaNacimiento => d.fechaNacimiento
    case Celular => d.celular
    case CineFavorito => d.cineFavorito
    case Genero => d.genero
  }

  /** `{ ...formData, [name]: value }`: the named field takes the value, every other field keeps its own. */
  function With(d: FormData, f: Field, v: string): (r: FormData)
    ensures forall g :: Get(r, g) == if g == f then v else Get(d, g)
  {
    match f
    case Nombre => d.(nombre := v)
    case Apellido => d.(apellido := v)
    case Email => d.(email := v)
    case FechaNacimiento => d.(fechaNacimiento := v)
    case Celular => d.(celular := v)
    case CineFavorito => d.(cineFavorito := v)
    case Genero => d.(genero := v)
  }

  /** Two forms that agree on every field are the same form. */
  lemma FormExtensional(a: FormData, b: FormData)
    requires forall f :: Get(a, f) == Get(b, f)
    ensures a == b
  {
    assert Get(a, Nombre) == Get(b, Nombre) && Get(a, Apellido) == Get(b, Apellido);
    assert Get(a, Email) == Get(b, Email) && Get(a, FechaNacimiento) == Get(b, FechaNacimiento);
    assert Get(a, Celular) == Get(b, Celular) && Get(a, CineFavorito) == Get(b, CineFavorito);
    assert Get(a, Genero) == Get(b, Genero);
  }

  /** Writing back a field's own value changes nothing; the last of two writes to a field wins. */
  lemma WithLaws(d: FormData, f: Field, v: string, w: string)
    ensures With(d, f, Get(d, f)) == d
    ensures With(With(d, f, v), f, w) == With(d, f, w)
  {
    FormExtensional(With(d, f, Get(d, f)), d);
    FormExtensional(With(With(d, f, v), f, w), With(d, f, w));
  }

  /** `user.displayName?.split(' ') || ['', '']`, with the two destructured names defaulting to ''. */
  function NameWords(displayName: Option<string>): (r: (string, string))
    ensures displayName.None? ==> r == ("", "")
    ensures displayName.Some? ==> r.0 <= displayName.value && ' ' !in r.0
    ensures displayName.Some? && |r.0| < |displayName.value| ==> displayName.value[|r.0|] == ' '
    ensures displayName.Some? && ' ' !in displayName.value ==> r == (displayName.value, "")
    ensures displayName.Some? && ' ' in displayName.value ==>
      |r.0| < |displayName.value| && r.1 == Split(displayName.value[|r.0| + 1..], ' ')[0]
  {
    match displayName
    case None => ("", "")
    case Some(n) =>
      var parts := Split(n, ' ');
      if ' ' !in n then
        SplitWithoutSeparator(n, ' ');
        (parts[0], "")
      else
        SplitAfterFirst(n, ' ');
        (parts[0], if |parts| > 1 then parts[1] else "")
  }

  /**
   * A display name of three or more words ("Ana María López") prefills the
   * second word as the last name; the words after it are dropped.
   */
  lemma PrefillSecondWord(user: AuthUser, first: string, second: string, more: string)
    requires !Truthy(user.username) && !Truthy(user.lastName)
    requires ' ' !in first && ' ' !in second
    requires user.displayName == Some(first + " " + second + " " + more)
    ensures Prefill(user).nombre == first && Prefill(user).apellido == second
  {
    var n := first + " " + second + " " + more;
    var tail := second + " " + more;
    assert n == first + [' '] + tail;
    assert tail == second + [' '] + more;
    SplitFirstPiece(first, ' ', tail);
    SplitFirstPiece(second, ' ', more);
    assert ' ' in n by {
      assert n[|first|] == ' ';
    }
  }

  /** The form the effect fills in from the user's profile. */
  function Prefill(user: AuthUser): (r: FormData)
    ensures Truthy(user.username) ==> r.nombre == user.username.value
    ensures !Truthy(user.username) ==> r.nombre == NameWords(user.displayName).0
    ensures Truthy(user.lastName) ==> r.apellido == user.lastName.value
    ensures !Truthy(user.lastName) ==> r.apellido == NameWords(user.displayName).1
    ensures r.email == (if Truthy(user.email) then user.email.value else "")
    ensures r.fechaNacimiento == (if Truthy(user.fechaNacimiento) then user.fechaNacimiento.value else "")
    ensures r.celular == (if Truthy(user.celular) then user.celular.value else "")
    ensures r.cineFavorito == (if Truthy(user.cineFavorito) then user.cineFavorito.value else "")
    ensures r.genero == (if Truthy(user.genero) then user.genero.value else "")
  {
    var (firstName, lastName) := NameWords(user.displayName);
    FormData(
      OrDefault(Or(user.username, Some(firstName)), ""),
      OrDefault(Or(user.lastName, Some(lastName)), ""),
      OrDefault(user.email, ""),
      OrDefault(user.fechaNacimiento, ""),
      OrDefault(user.celular, ""),
      OrDefault(user.cineFavorito, ""),
      OrDefault(user.genero, ""))
  }

  /**
   * A provider name "first last" (each word free of spaces) prefills the two
   * name fields with its two words when the profile has no name of its own.
   */
  lemma PrefillSplitsDisplayName(user: AuthUser, first: string, last: string)
    requires !Truthy(user.username) && !Truthy(user.lastName)
    requires ' ' !in first && ' ' !in last
    requires user.displayName == Some(first + " " + last)
    ensures Prefill(user).nombre == first && Prefill(user).apellido == last
  {
    SplitFirstPiece(first, ' ', last);
    SplitWithoutSeparator(last, ' ');
    assert first + " " + last == first + [' '] + last;
    assert ' ' in first + " " + last by {
      assert (first + " " + last)[|first|] == ' ';
    }
  }

  /** What a save works on: the form and the avatar file as they were when it started. */
  datatype PendingSave = PendingSave(form: FormData, avatar: Option<File>)

  class ProfilePage {
    var formData: FormData
    var newAvatarFile: Option<File>
    var isSaving: bool
    var error: string
    var successMsg: string

    /** No message is shown while saving, and the two messages are never shown together. */
    ghost predicate Valid()
      reads this
    {
      (isSaving ==> error == "" && successMsg == "") && (error == "" || successMsg == "")
    }

    constructor ()
      ensures formData == EmptyForm && newAvatarFile.None?
      ensures !isSaving && error == "" && successMsg == ""
      ensures Valid()
    {
      formData := EmptyForm;
      newAvatarFile := None;
      isSaving := false;
      error := "";
      successMsg := "";
    }

    /** The prefill effect: runs only once a user is present and loading has finished. */
    method PrefillEffect(user: Option<AuthUser>, loading: bool)
      requires Valid()
      modifies this
      ensures user.Some? && !loading ==> formData == Prefill(user.value)
      ensures !(user.Some? && !loading) ==> formData == old(formData)
      ensures newAvatarFile == old(newAvatarFile) && isSaving == old(isSaving)
      ensures error == old(error) && successMsg == old(successMsg)
      ensures Valid()
    {
      if user.Some? && !loading {
        formData := Prefill(user.value);
      }
    }

    /** `handleChange`: one field edited; a shown success message goes away. */
    method HandleChange(name: Field, value: string)
      requires Valid()
      modifies this
      ensures formData == With(old(formData), name, value)
      ensures successMsg == ""
      ensures newAvatarFile == old(newAvatarFile) && isSaving == old(isSaving) && error == old(error)
      ensures Valid()
    {
      formData := With(formData, name, value);
      successMsg := "";
    }

    /** `handleFileChange`: the first chosen file, or none when the choice was cancelled. */
    method HandleFileChange(files: seq<File>)
      requires Valid()
      modifies this
      ensures newAvatarFile == (if |files| > 0 then Some(files[0]) else None)
      ensures formData == old(formData) && isSaving == old(isSaving)
      ensures error == old(error) && successMsg == old(successMsg)
      ensures Valid()
    {
      newAvatarFile := if |files| > 0 then Some(files[0]) else None;
    }

    /**
     * The start of `handleSubmit`: refused (`None`, nothing changes) while a save
     * is running; otherwise saving starts with both messages cleared, and the
     * form and avatar it will send are returned.
     */
    method HandleSubmit() returns (pending: Option<PendingSave>)
      requires Valid()
      modifies this
      ensures old(isSaving) ==>
        pending.None? &&
        formData == old(formData) && newAvatarFile == old(newAvatarFile) &&
        isSaving && error == old(error) && successMsg == old(successMsg)
      ensures !old(isSaving) ==>
        pending == Some(PendingSave(old(formData), old(newAvatarFile))) &&
        isSaving && error == "" && successMsg == "" &&
        formData == old(formData) && newAvatarFile == old(newAvatarFile)
      ensures Valid()
    {
      if isSaving {
        pending := None;
      } else {
        isSaving := true;
        error := "";
        successMsg := "";
        pending := Some(PendingSave(formData, newAvatarFile));
      }
    }

    /**
     * The rest of `handleSubmit`, once the remote calls have answered:
     * `profileOk` is the outcome of the profile update and `avatarOk` that of the
     * avatar upload (only attempted when the save carries a file and the profile
     * update succeeded). Saving stops and exactly one message is shown; the picked
     * file is dropped only when the upload succeeded.
     */
    method FinishSubmit(pending: PendingSave, profileOk: bool, avatarOk: bool)
      requires Valid() && isSaving
      modifies this
      ensures !isSaving
      ensures (error != "") != (successMsg != "")
      ensures var ok := profileOk && (pending.avatar.None? || avatarOk);
        (ok ==> successMsg == SuccessMessage && error == "") &&
        (!ok ==> error == ErrorMessage && successMsg == "")
      ensures profileOk && pending.avatar.Some? && avatarOk ==> newAvatarFile.None?
      ensures !(profileOk && pending.avatar.Some? && avatarOk) ==> newAvatarFile == old(newAvatarFile)
      ensures formData == old(formData)
      ensures Valid()
    {
      var failed := false;
      if !profileOk {
        failed := true;
      } else if pending.avatar.Some? {
        if avatarOk {
          newAvatarFile := None;
        } else {
          failed := true;
        }
      }
      if failed {
        error := ErrorMessage;
      } else {
        successMsg := SuccessMessage;
      }
      isSaving := false;
    }
  }
}
