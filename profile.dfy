/**
 * The profile page (client/src/pages/profile.tsx): the avatar's fallback
 * initial, the shortened workspace id and the starting values of the form,
 * all derived from the signed-in user as the account endpoints return it.
 */
module Profile {
  import opened Wrappers
  import opened Strings
  import opened AuthRoutes

  /** `s.charAt(0).toUpperCase()` for a non-empty string. */
  function InitialOf(s: string): (r: string)
    requires s != ""
    ensures |r| == 1 && r[0] == UpperChar(s[0]) && !IsLower(r[0])
  {
    ToUpper(s[..1])
  }

  /**
   * `getInitials`: the first letter of the first name, else of the
   * username, else "U"; always one character that is not a lower-case letter.
   */
  function GetInitials(user: Option<SafeUser>): (r: string)
    ensures |r| == 1 && !IsLower(r[0])
    ensures user.Some? && Truthy(user.value.firstName) ==> r[0] == UpperChar(user.value.firstName.value[0])
    ensures user.Some? && !Truthy(user.value.firstName) && user.value.username != "" ==> r[0] == UpperChar(user.value.username[0])
    ensures user.None? || (!Truthy(user.value.firstName) && user.value.username == "") ==> r == "U"
  {
    if user.Some? && Truthy(user.value.firstName) then InitialOf(user.value.firstName.value)
    else if user.Some? && user.value.username != "" then InitialOf(user.value.username)
    else "U"
  }

  /** `user?.id?.slice(0, 8) || "N/A"`. */
  function WorkspaceId(user: Option<SafeUser>): (r: string)
    ensures user.Some? && user.value.id != "" ==> |r| <= 8 && IsPrefixOf(r, user.value.id)
    ensures user.Some? && |user.value.id| >= 8 ==> r == user.value.id[..8]
    ensures user.None? || user.value.id == "" ==> r == "N/A"
  {
    if user.Some? && user.value.id != "" then
      (if |user.value.id| <= 8 then user.value.id else user.value.id[..8])
    else "N/A"
  }

  predicate IsPrefixOf(p: string, s: string) {
    |p| <= |s| && s[..|p|] == p
  }

  /** The form's starting values: the user's first name and email, or "" when missing. */
  function InitialForm(user: Option<SafeUser>): (r: (string, string))
    ensures user.Some? && user.value.firstName.Some? ==> r.0 == user.value.firstName.value
    ensures user.Some? && user.value.email.Some? ==> r.1 == user.value.email.value
    ensures user.None? ==> r == ("", "")
    ensures user.Some? && user.value.firstName.None? ==> r.0 == ""
    ensures user.Some? && user.value.email.None? ==> r.1 == ""
  {
    match user
    case None => ("", "")
    case Some(u) => (u.firstName.GetOr(""), u.email.GetOr(""))
  }

  /** What the avatar fallback shows does not depend on the avatar image or the email. */
  lemma InitialsIgnoreImage(u: SafeUser, image: Option<string>, email: Option<string>)
    ensures GetInitials(Some(u.(profileImageUrl := image, email := email))) == GetInitials(Some(u))
  {
  }
}
