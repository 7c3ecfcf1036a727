/**
 * The account endpoints (server/replit_integrations/auth/routes.ts): login
 * and registration with a username and password, reading and updating the
 * signed-in user, and setting or removing the avatar. Each handler is a
 * ladder of guards with fixed status codes; every user it returns has had
 * its password field removed.
 *
 * The user table is a sequence of rows (a lookup returns the first match,
 * as `const [user] = ...` does), password hashing and comparison are
 * function parameters, and a storage call that throws is a `fails` flag.
 */
module AuthRoutes {
  import opened Wrappers
  import opened Strings

  /** A row of the `users` table; `password` holds the hash and is null for accounts from the identity provider. */
  datatype User = User(
    id: string,
    username: string,
    password: Option<string>,
    email: Option<string>,
    firstName: Option<string>,
    profileImageUrl: Option<string>)

  /** `const { password: _, ...safeUser } = user`: the user as sent to the client. */
  datatype SafeUser = SafeUser(
    id: string,
    username: string,
    email: Option<string>,
    firstName: Option<string>,
    profileImageUrl: Option<string>)

  /** A JSON body value: absent, a string, or any other JSON value. */
  datatype BodyValue = Absent | Text(text: string) | OtherValue

  /** The fields an update sets; `None` leaves a column as it is, `Some(None)` writes null. */
  datatype ProfilePatch = ProfilePatch(
    firstName: Option<Option<string>>,
    email: Option<Option<string>>,
    profileImageUrl: Option<Option<string>>)

  datatype AuthReply =
    | Failure(status: int, message: string)
    | UserJson(user: SafeUser)
    | Confirmation(message: string)

  const LocalAuth := "local"
  const ImagePrefix := "data:image/"
  const MaxImageLength := 2800000

  function Strip(u: User): (s: SafeUser)
    ensures s.id == u.id && s.username == u.username && s.email == u.email
    ensures s.firstName == u.firstName && s.profileImageUrl == u.profileImageUrl
  {
    SafeUser(u.id, u.username, u.email, u.firstName, u.profileImageUrl)
  }

  /** What the client receives does not depend on the stored password. */
  lemma StripHidesPassword(u: User, hash: Option<string>)
    ensures Strip(u.(password := hash)) == Strip(u)
  {
  }

  /** The column a user lookup compares. */
  datatype Column = IdColumn | UsernameColumn

  function ColumnOf(u: User, column: Column): string {
    match column
    case IdColumn => u.id
    case UsernameColumn => u.username
  }

  /** The first row whose `column` holds `value`: a select with one equality, first row taken. */
  function FirstWhere(users: seq<User>, column: Column, value: string): (r: Option<User>)
    ensures r.Some? ==> r.value in users && ColumnOf(r.value, column) == value
    ensures r.None? <==> forall u :: u in users ==> ColumnOf(u, column) != value
  {
    if users == [] then None
    else if ColumnOf(users[0], column) == value then Some(users[0])
    else FirstWhere(users[1..], column, value)
  }

  /** The row found is the first one holding the value: every row before it holds another. */
  lemma {:induction false} FirstWhereIsFirst(users: seq<User>, column: Column, value: string)
    requires FirstWhere(users, column, value).Some?
    ensures exists k :: 0 <= k < |users| && users[k] == FirstWhere(users, column, value).value
                        && forall j :: 0 <= j < k ==> ColumnOf(users[j], column) != value
  {
    if ColumnOf(users[0], column) != value {
      FirstWhereIsFirst(users[1..], column, value);
      var k :| 0 <= k < |users[1..]| && users[1..][k] == FirstWhere(users[1..], column, value).value
               && forall j :: 0 <= j < k ==> ColumnOf(users[1..][j], column) != value;
      assert users[k + 1] == FirstWhere(users, column, value).value;
      forall j | 0 <= j < k + 1 ensures ColumnOf(users[j], column) != value {
        if j > 0 {
          assert users[j] == users[1..][j - 1];
        }
      }
    } else {
      assert users[0] == FirstWhere(users, column, value).value;
    }
  }

  /** `getUserByUsername`. */
  function ByUsername(users: seq<User>, username: string): Option<User> {
    FirstWhere(users, UsernameColumn, username)
  }

  /** `getUser`. */
  function ById(users: seq<User>, id: string): Option<User> {
    FirstWhere(users, IdColumn, id)
  }

  /**
   * `verifyPassword`: the user with that name, provided it has a stored
   * hash and the password matches it.
   */
  function VerifyPassword(users: seq<User>, username: string, password: string,
                          matches: (string, string) -> bool): (r: Option<User>)
    ensures r.Some? <==> ByUsername(users, username).Some? && Truthy(ByUsername(users, username).value.password)
                         && matches(password, ByUsername(users, username).value.password.value)
    ensures r.Some? ==> r == ByUsername(users, username)
  {
    match ByUsername(users, username)
    case None => None
    case Some(u) =>
      if !Truthy(u.password) then None
      else if matches(password, u.password.value) then Some(u)
      else None
  }

  /**
   * `req.session?.userId || req.user?.claims?.sub`: the local session's
   * user when set, otherwise the identity provider's subject; `None` means
   * the request is answered 401.
   */
  function ResolveUserId(sessionUserId: Option<string>, claimsSub: Option<string>): (r: Option<string>)
    ensures Truthy(sessionUserId) ==> r == sessionUserId
    ensures !Truthy(sessionUserId) && Truthy(claimsSub) ==> r == claimsSub
    ensures r.None? <==> !Truthy(sessionUserId) && !Truthy(claimsSub)
    ensures r.Some? ==> r.value != ""
  {
    if Truthy(sessionUserId) then sessionUserId
    else if Truthy(claimsSub) then claimsSub
    else None
  }

  /**
   * The avatar checks, in order: the image must be a non-empty string,
   * start with `data:image/`, and be at most 2800000 UTF-16 code units
   * long. `None` means the image is accepted.
   */
  function AvatarError(image: BodyValue): (r: Option<string>)
    ensures r.None? <==> image.Text? && StartsWith(image.text, ImagePrefix) && Utf16Length(image.text) <= MaxImageLength
    ensures !image.Text? || image.text == "" ==> r == Some("Image data required")
    ensures image.Text? && image.text != "" && !StartsWith(image.text, ImagePrefix) ==> r == Some("Invalid image format")
    ensures image.Text? && StartsWith(image.text, ImagePrefix) && Utf16Length(image.text) > MaxImageLength ==>
      r == Some("Image too large (max 2MB)")
  {
    if !image.Text? || image.text == "" then Some("Image data required")
    else if !StartsWith(image.text, ImagePrefix) then Some("Invalid image format")
    else if Utf16Length(image.text) > MaxImageLength then Some("Image too large (max 2MB)")
    else None
  }

  /** The limit is inclusive: an image of exactly 2800000 code units passes, one more does not. */
  lemma AvatarLimitInclusive(s: string, t: string)
    requires StartsWith(s, ImagePrefix) && Utf16Length(s) == MaxImageLength
    requires StartsWith(t, ImagePrefix) && Utf16Length(t) == MaxImageLength + 1
    ensures AvatarError(Text(s)).None?
    ensures AvatarError(Text(t)) == Some("Image too large (max 2MB)")
  {
  }

  /** `.set({...data})`: the columns the patch names take its values, the others keep theirs. */
  function Patched(u: User, patch: ProfilePatch): (r: User)
    ensures r.id == u.id && r.username == u.username && r.password == u.password
    ensures r.firstName == patch.firstName.GetOr(u.firstName)
    ensures r.email == patch.email.GetOr(u.email)
    ensures r.profileImageUrl == patch.profileImageUrl.GetOr(u.profileImageUrl)
  {
    User(u.id, u.username, u.password,
         patch.email.GetOr(u.email), patch.firstName.GetOr(u.firstName),
         patch.profileImageUrl.GetOr(u.profileImageUrl))
  }

  /** `update(users).set(...).where(eq(users.id, id))`: every row with that id is patched, the others are untouched. */
  function UpdateRows(users: seq<User>, id: string, patch: ProfilePatch): (r: seq<User>)
    ensures |r| == |users|
    ensures forall i :: 0 <= i < |users| ==> r[i] == if users[i].id == id then Patched(users[i], patch) else users[i]
  {
    if users == [] then []
    else [if users[0].id == id then Patched(users[0], patch) else users[0]] + UpdateRows(users[1..], id, patch)
  }

  /** After an update, looking the id up gives the patched row exactly when the id existed. */
  lemma {:induction false} UpdateThenLookup(users: seq<User>, id: string, patch: ProfilePatch)
    ensures ById(users, id).None? ==> ById(UpdateRows(users, id, patch), id).None?
    ensures ById(users, id).Some? ==> ById(UpdateRows(users, id, patch), id) == Some(Patched(ById(users, id).value, patch))
  {
    if users != [] {
      UpdateThenLookup(users[1..], id, patch);
      var r := UpdateRows(users, id, patch);
      assert r[1..] == UpdateRows(users[1..], id, patch);
    }
  }

  /**
   * A freshly registered account can log in: the new row is the one its
   * username finds, and a password that matches the stored hash verifies.
   */
  lemma RegisteredUserCanLogin(users: seq<User>, id: string, username: string, password: string,
                               email: Option<string>, firstName: Option<string>,
                               hash: string -> string, matches: (string, string) -> bool)
    requires ByUsername(users, username).None?
    requires hash(password) != "" && matches(password, hash(password))
    ensures VerifyPassword(users + [User(id, username, Some(hash(password)), email, firstName, None)], username, password, matches)
         == Some(User(id, username, Some(hash(password)), email, firstName, None))
  {
    var u := User(id, username, Some(hash(password)), email, firstName, None);
    ByUsernameAppend(users, username, u);
  }

  lemma {:induction false} ByUsernameAppend(users: seq<User>, username: string, u: User)
    requires ByUsername(users, username).None? && u.username == username
    ensures ByUsername(users + [u], username) == Some(u)
  {
    if users == [] {
    } else {
      assert (users + [u])[1..] == users[1..] + [u];
      ByUsernameAppend(users[1..], username, u);
    }
  }

  /** The user table and the one client session whose requests are being answered. */
  class AuthServer {
    var users: seq<User>
    var sessionUserId: Option<string>
    var authType: Option<string>

    constructor (users: seq<User>)
      ensures this.users == users && sessionUserId.None? && authType.None?
    {
      this.users := users;
      sessionUserId, authType := None, None;
    }

    /** POST /api/auth/login. */
    method Login(username: Option<string>, password: Option<string>, matches: (string, string) -> bool, fails: bool)
      returns (reply: AuthReply)
      modifies this`sessionUserId, this`authType
      ensures !Truthy(username) || !Truthy(password) ==>
        reply == Failure(400, "Username and password required") && unchanged(this)
      ensures Truthy(username) && Truthy(password) && fails ==> reply == Failure(500, "Login failed") && unchanged(this)
      ensures Truthy(username) && Truthy(password) && !fails ==>
        match VerifyPassword(users, username.value, password.value, matches)
        case None => reply == Failure(401, "Invalid username or password") && unchanged(this)
        case Some(u) => reply == UserJson(Strip(u)) && sessionUserId == Some(u.id) && authType == Some(LocalAuth)
    {
      if !Truthy(username) || !Truthy(password) {
        return Failure(400, "Username and password required");
      }
      if fails {
        return Failure(500, "Login failed");
      }
      var user := VerifyPassword(users, username.value, password.value, matches);
      if user.None? {
        return Failure(401, "Invalid username or password");
      }
      sessionUserId := Some(user.value.id);
      authType := Some(LocalAuth);
      reply := UserJson(Strip(user.value));
    }

    /** POST /api/auth/register; `newId` is the id the database generates for the new row. */
    method Register(username: Option<string>, password: Option<string>, email: Option<string>, firstName: Option<string>,
                    hash: string -> string, newId: string, fails: bool)
      returns (reply: AuthReply)
      modifies this`users, this`sessionUserId, this`authType
      ensures !Truthy(username) || !Truthy(password) ==>
        reply == Failure(400, "Username and password required") && unchanged(this)
      ensures Truthy(username) && Truthy(password) && fails ==> reply == Failure(500, "Registration failed") && unchanged(this)
      ensures Truthy(username) && Truthy(password) && !fails && ByUsername(old(users), username.value).Some? ==>
        reply == Failure(409, "Username already exists") && unchanged(this)
      ensures Truthy(username) && Truthy(password) && !fails && ByUsername(old(users), username.value).None? ==>
        var u := User(newId, username.value, Some(hash(password.value)), email, firstName, None);
        users == old(users) + [u] && reply == UserJson(Strip(u)) &&
        sessionUserId == Some(newId) && authType == Some(LocalAuth)
    {
      if !Truthy(username) || !Truthy(password) {
        return Failure(400, "Username and password required");
      }
      if fails {
        return Failure(500, "Registration failed");
      }
      if ByUsername(users, username.value).Some? {
        return Failure(409, "Username already exists");
      }
      var u := User(newId, username.value, Some(hash(password.value)), email, firstName, None);
      users := users + [u];
      sessionUserId := Some(newId);
      authType := Some(LocalAuth);
      reply := UserJson(Strip(u));
    }

    /** POST /api/auth/logout: the session is destroyed unless destroying it fails. */
    method Logout(destroyFails: bool) returns (reply: AuthReply)
      modifies this`sessionUserId, this`authType
      ensures destroyFails ==> reply == Failure(500, "Logout failed") && unchanged(this)
      ensures !destroyFails ==> reply == Confirmation("Logged out") && sessionUserId.None? && authType.None?
    {
      if destroyFails {
        return Failure(500, "Logout failed");
      }
      sessionUserId, authType := None, None;
      reply := Confirmation("Logged out");
    }

    /** GET /api/auth/user. */
    method GetUser(claimsSub: Option<string>, fails: bool) returns (reply: AuthReply)
      ensures ResolveUserId(sessionUserId, claimsSub).None? ==> reply == Failure(401, "Unauthorized")
      ensures ResolveUserId(sessionUserId, claimsSub).Some? && fails ==> reply == Failure(500, "Failed to fetch user")
      ensures ResolveUserId(sessionUserId, claimsSub).Some? && !fails ==>
        match ById(users, ResolveUserId(sessionUserId, claimsSub).value)
        case None => reply == Failure(404, "User not found")
        case Some(u) => reply == UserJson(Strip(u))
    {
      var userId := ResolveUserId(sessionUserId, claimsSub);
      if userId.None? {
        return Failure(401, "Unauthorized");
      }
      if fails {
        return Failure(500, "Failed to fetch user");
      }
      var user := ById(users, userId.value);
      if user.None? {
        return Failure(404, "User not found");
      }
      reply := UserJson(Strip(user.value));
    }

    /**
     * The shared tail of the three update handlers: patch the rows with
     * that id and answer with the first of them, or 404 when there is none.
     */
    method ApplyPatch(userId: string, patch: ProfilePatch) returns (reply: AuthReply)
      modifies this`users
      ensures users == UpdateRows(old(users), userId, patch)
      ensures ById(old(users), userId).None? ==> reply == Failure(404, "User not found")
      ensures ById(old(users), userId).Some? ==> reply == UserJson(Strip(Patched(ById(old(users), userId).value, patch)))
    {
      UpdateThenLookup(users, userId, patch);
      users := UpdateRows(users, userId, patch);
      var user := ById(users, userId);
      if user.None? {
        return Failure(404, "User not found");
      }
      reply := UserJson(Strip(user.value));
    }

    /** PATCH /api/auth/user: first name, email and avatar as given in the body. */
    method UpdateUser(claimsSub: Option<string>, patch: ProfilePatch, fails: bool) returns (reply: AuthReply)
      modifies this`users
      ensures ResolveUserId(sessionUserId, claimsSub).None? ==> reply == Failure(401, "Unauthorized") && users == old(users)
      ensures ResolveUserId(sessionUserId, claimsSub).Some? && fails ==>
        reply == Failure(500, "Failed to update user") && users == old(users)
      ensures ResolveUserId(sessionUserId, claimsSub).Some? && !fails ==>
        var id := ResolveUserId(sessionUserId, claimsSub).value;
        users == UpdateRows(old(users), id, patch) &&
        (ById(old(users), id).None? ==> reply == Failure(404, "User not found")) &&
        (ById(old(users), id).Some? ==> reply == UserJson(Strip(Patched(ById(old(users), id).value, patch))))
    {
      var userId := ResolveUserId(sessionUserId, claimsSub);
      if userId.None? {
        return Failure(401, "Unauthorized");
      }
      if fails {
        return Failure(500, "Failed to update user");
      }
      reply := ApplyPatch(userId.value, patch);
    }

    /** POST /api/auth/avatar: the checks of `AvatarError`, then the image becomes the avatar. */
    method UploadAvatar(claimsSub: Option<string>, image: BodyValue, fails: bool) returns (reply: AuthReply)
      modifies this`users
      ensures ResolveUserId(sessionUserId, claimsSub).None? ==> reply == Failure(401, "Unauthorized") && users == old(users)
      ensures ResolveUserId(sessionUserId, claimsSub).Some? && AvatarError(image).Some? ==>
        reply == Failure(400, AvatarError(image).value) && users == old(users)
      ensures ResolveUserId(sessionUserId, claimsSub).Some? && AvatarError(image).None? && fails ==>
        reply == Failure(500, "Failed to upload avatar") && users == old(users)
      ensures ResolveUserId(sessionUserId, claimsSub).Some? && AvatarError(image).None? && !fails ==>
        var id := ResolveUserId(sessionUserId, claimsSub).value;
        var patch := ProfilePatch(None, None, Some(Some(image.text)));
        users == UpdateRows(old(users), id, patch) &&
        (ById(old(users), id).None? ==> reply == Failure(404, "User not found")) &&
        (ById(old(users), id).Some? ==> reply == UserJson(Strip(Patched(ById(old(users), id).value, patch))))
    {
      var userId := ResolveUserId(sessionUserId, claimsSub);
      if userId.None? {
        return Failure(401, "Unauthorized");
      }
      var error := AvatarError(image);
      if error.Some? {
        return Failure(400, error.value);
      }
      if fails {
        return Failure(500, "Failed to upload avatar");
      }
      reply := ApplyPatch(userId.value, ProfilePatch(None, None, Some(Some(image.text))));
    }

    /** DELETE /api/auth/avatar: the avatar column is set to null. */
    method DeleteAvatar(claimsSub: Option<string>, fails: bool) returns (reply: AuthReply)
      modifies this`users
      ensures ResolveUserId(sessionUserId, claimsSub).None? ==> reply == Failure(401, "Unauthorized") && users == old(users)
      ensures ResolveUserId(sessionUserId, claimsSub).Some? && fails ==>
        reply == Failure(500, "Failed to delete avatar") && users == old(users)
      ensures ResolveUserId(sessionUserId, claimsSub).Some? && !fails ==>
        var id := ResolveUserId(sessionUserId, claimsSub).value;
        users == UpdateRows(old(users), id, ProfilePatch(None, None, Some(None))) &&
        (ById(old(users), id).None? ==> reply == Failure(404, "User not found")) &&
        (ById(old(users), id).Some? ==>
          reply == UserJson(Strip(Patched(ById(old(users), id).value, ProfilePatch(None, None, Some(None)))))
          && reply.user.profileImageUrl.None? && reply.user.id == id)
    {
      var userId := ResolveUserId(sessionUserId, claimsSub);
      if userId.None? {
        return Failure(401, "Unauthorized");
      }
      if fails {
        return Failure(500, "Failed to delete avatar");
      }
      reply := ApplyPatch(userId.value, ProfilePatch(None, None, Some(None)));
    }
  }
}
