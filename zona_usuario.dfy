/**
 * The user area in the navigation bar: the avatar button (picture or initial),
 * the greeting name, and the drop-down menu. Upper-casing is the abstract `upper`.
 */
module ZonaUsuario {
  import opened Js
  import opened JsString
  import opened Records

  /**
   * `user.username || user.displayName || user.email?.split('@')[0]`: the last
   * fallback is the part of the e-mail before its first '@', and with no e-mail
   * there is no name.
   */
  function DisplayUsername(user: AuthUser): (r: Option<string>)
    ensures Truthy(user.username) ==> r == user.username
    ensures !Truthy(user.username) && Truthy(user.displayName) ==> r == user.displayName
    ensures !Truthy(user.username) && !Truthy(user.displayName) ==>
      (r.None? <==> user.email.None?)
    ensures !Truthy(user.username) && !Truthy(user.displayName) && user.email.Some? ==>
      r.value <= user.email.value && '@' !in r.value &&
      (|r.value| < |user.email.value| ==> user.email.value[|r.value|] == '@')
  {
    var named := Or(user.username, user.displayName);
    if Truthy(named) then named
    else
      match user.email
      case None => None
      case Some(e) => Some(Split(e, '@')[0])
  }

  /** A plain address shows its local part. */
  lemma DisplayUsernameFromEmail(user: AuthUser, local: string, domain: string)
    requires !Truthy(user.username) && !Truthy(user.displayName)
    requires '@' !in local && user.email == Some(local + "@" + domain)
    ensures DisplayUsername(user) == Some(local)
  {
    SplitFirstPiece(local, '@', domain);
    assert local + "@" + domain == local + ['@'] + domain;
  }

  /** `s.charAt(0)`: the first character, or "" for the empty string. */
  function CharAt0(s: string): (r: string)
    ensures |r| == if s == "" then 0 else 1
    ensures r <= s
  {
    if s == "" then "" else [s[0]]
  }

  /** `displayUsername?.charAt(0).toUpperCase() || "U"`. */
  function InitialLetter(upper: string -> string, name: Option<string>): (r: string)
    ensures r != ""
    ensures name.Some? && name.value != "" && upper([name.value[0]]) != "" ==> r == upper([name.value[0]])
    ensures name.Some? && upper(CharAt0(name.value)) == "" ==> r == "U"
    ensures name.None? ==> r == "U"
  {
    OrDefault(if name.Some? then Some(upper(CharAt0(name.value))) else None, "U")
  }

  /**
   * A user without a user name or display name whose e-mail is missing, empty or
   * starts with '@' has no letter to show, so the avatar falls back to "U".
   */
  lemma NamelessUserShowsU(upper: string -> string, user: AuthUser)
    requires upper("") == ""
    requires !Truthy(user.username) && !Truthy(user.displayName)
    requires user.email.None? || user.email.value == "" || user.email.value[0] == '@'
    ensures InitialLetter(upper, DisplayUsername(user)) == "U"
  {
    var name := DisplayUsername(user);
    if user.email.Some? {
      assert name.value == "";
    }
  }

  /** What the avatar button shows. */
  datatype AvatarContent = Picture(url: string) | Initial(letter: string)

  /** The picture when the user has one (`getAvatarUrl()` truthy), otherwise the initial. */
  function AvatarButton(upper: string -> string, user: AuthUser): (r: AvatarContent)
    ensures r.Picture? <==> Truthy(user.photoURL) || Truthy(user.avatar)
    ensures r.Picture? ==> Some(r.url) == AvatarUrl(Some(user))
    ensures r.Initial? ==> r.letter == InitialLetter(upper, DisplayUsername(user))
  {
    var url := AvatarUrl(Some(user));
    if Truthy(url) then Picture(url.value) else Initial(InitialLetter(upper, DisplayUsername(user)))
  }

  class UserMenu {
    var isMenuOpen: bool

    constructor ()
      ensures !isMenuOpen
    {
      isMenuOpen := false;
    }

    /** The avatar button flips the menu. */
    method ToggleMenu()
      modifies this
      ensures isMenuOpen == !old(isMenuOpen)
    {
      isMenuOpen := !isMenuOpen;
    }

    /** `handleMenuItemClick(path)`: the menu always closes and the router goes to `path`. */
    method HandleMenuItemClick(path: string) returns (target: string)
      modifies this
      ensures !isMenuOpen && target == path
    {
      isMenuOpen := false;
      target := path;
    }

    /** Signing out: the sign-out is requested, the menu closes and the router goes home. */
    method HandleLogout() returns (logoutRequested: bool, target: string)
      modifies this
      ensures logoutRequested && !isMenuOpen && target == "/"
    {
      logoutRequested := true;
      isMenuOpen := false;
      target := "/";
    }
  }
}
