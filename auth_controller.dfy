/**
 * backend/src/controllers/auth.controller.js: the guard chains of signup, login,
 * logout, updateProfile and checkAuth, and their effect on the `users` collection.
 * bcrypt, Cloudinary and the database are parameters: `hasher` is salt-and-hash
 * (absent when it throws), `verify` is `bcrypt.compare`, `upload` is the image
 * upload (absent when it throws), and the `...Ok` flags say whether a database
 * call succeeds.
 */
module AuthController {
  import opened Wrappers
  import opened JsText
  import opened Users
  import opened Http

  const AllFieldsRequired: string := "All feilds are required"
  const PasswordTooShort: string := "Password must be at least 6 characters"
  const EmailExists: string := "Email already exists"
  const InvalidCredentials: string := "Invalid credentials"
  const WrongPassword: string := "Wrong Password"
  const ServerError: string := "Internal Server Error"
  const PictureRequired: string := "Profile picture is required"
  const UserNotFound: string := "User not found"

  /** The shortest password the backend accepts, in UTF-16 code units. */
  const MinPasswordLength: nat := 6

  /** The profile signup and updateProfile return: no password, no creation time. */
  function ProfileOf(u: User): (p: ProfileView)
    ensures p.id == u.id && p.fullName == u.fullName && p.email == u.email && p.profilePic == u.profilePic
    ensures p.createdAt.None?
  {
    ProfileView(u.id, u.fullName, u.email, u.profilePic, None)
  }

  /**
   * The checks signup makes before touching the database: missing fields first,
   * then the password length. Absent means all checks passed.
   */
  function SignupGuard(fullName: Option<string>, email: Option<string>, password: Option<string>): (r: Option<Response>)
    ensures r.None? <==> Truthy(fullName) && Truthy(email) && Truthy(password) && JsLength(password.value) >= MinPasswordLength
    ensures !(Truthy(fullName) && Truthy(email) && Truthy(password)) ==> r == Some(Reply(400, MessageBody(AllFieldsRequired)))
    ensures Truthy(fullName) && Truthy(email) && Truthy(password) && JsLength(password.value) < MinPasswordLength
            ==> r == Some(Reply(400, MessageBody(PasswordTooShort)))
    ensures r.Some? ==> r.value.status == 400 && r.value.cookies == []
  {
    if !Truthy(fullName) || !Truthy(email) || !Truthy(password) then Some(Reply(400, MessageBody(AllFieldsRequired)))
    else if JsLength(password.value) < MinPasswordLength then Some(Reply(400, MessageBody(PasswordTooShort)))
    else None
  }

  /** The length check is `< 6`: six code units pass, five are refused with the length message. */
  lemma PasswordLengthBoundary(fullName: string, email: string, p6: string, p5: string)
    requires fullName != "" && email != "" && JsLength(p6) == 6 && p5 != "" && JsLength(p5) == 5
    ensures SignupGuard(Some(fullName), Some(email), Some(p6)).None?
    ensures SignupGuard(Some(fullName), Some(email), Some(p5)) == Some(Reply(400, MessageBody(PasswordTooShort)))
  {
  }

  /** What a signup request answers and what the collection holds afterwards. */
  datatype Outcome = Outcome(res: Response, users: seq<User>)

  /**
   * signup as a function of the collection: guards, then the email lookup, then
   * hashing, then `generateToken` (which sets the cookie) and only then the save,
   * so a failed save still answers with the token cookie.
   */
  function SignupStep(users: seq<User>, fullName: Option<string>, email: Option<string>, password: Option<string>,
                      hasher: string -> Option<string>, newId: ObjectId, now: int,
                      lookupOk: bool, writeOk: bool): Outcome
  {
    var guard := SignupGuard(fullName, email, password);
    if guard.Some? then Outcome(guard.value, users)
    else if !lookupOk then Outcome(Reply(500, MessageBody(ServerError)), users)
    else if FindByEmail(users, email.value).Some? then Outcome(Reply(400, MessageBody(EmailExists)), users)
    else
      var hashed := hasher(password.value);
      if hashed.None? then Outcome(Reply(500, MessageBody(ServerError)), users)
      else
        var newUser := User(newId, fullName.value, email.value, hashed.value, DefaultProfilePic, now);
        if !writeOk then Outcome(Response(500, MessageBody(ServerError), [IssueToken(newId)]), users)
        else Outcome(Response(201, ProfileBody(ProfileOf(newUser)), [IssueToken(newId)]), users + [newUser])
  }

  /** Every refused signup leaves the collection as it was; only a 201 adds a user. */
  lemma SignupChangesStoreOnlyOnSuccess(users: seq<User>, fullName: Option<string>, email: Option<string>,
                                        password: Option<string>, hasher: string -> Option<string>,
                                        newId: ObjectId, now: int, lookupOk: bool, writeOk: bool)
    ensures var o := SignupStep(users, fullName, email, password, hasher, newId, now, lookupOk, writeOk);
            (o.res.status == 201 <==> o.users != users) && (o.res.status != 201 ==> o.users == users)
  {
    var o := SignupStep(users, fullName, email, password, hasher, newId, now, lookupOk, writeOk);
    if o.res.status == 201 {
      assert |o.users| == |users| + 1;
    }
  }

  /** An email already in the collection is answered 400 "Email already exists" whatever the other inputs. */
  lemma SignupDuplicateEmail(users: seq<User>, fullName: string, email: string, password: string,
                             hasher: string -> Option<string>, newId: ObjectId, now: int, writeOk: bool)
    requires fullName != "" && email != "" && JsLength(password) >= MinPasswordLength
    requires exists u :: u in users && u.email == email
    ensures SignupStep(users, Some(fullName), Some(email), Some(password), hasher, newId, now, true, writeOk)
            == Outcome(Reply(400, MessageBody(EmailExists)), users)
  {
  }

  /**
   * A successful signup stores the hasher's output, never the given password
   * string itself unless the hasher returns it, and answers with exactly id,
   * name, email and picture.
   */
  lemma SignupStoresHash(users: seq<User>, fullName: Option<string>, email: Option<string>, password: Option<string>,
                         hasher: string -> Option<string>, newId: ObjectId, now: int, lookupOk: bool, writeOk: bool)
    requires SignupStep(users, fullName, email, password, hasher, newId, now, lookupOk, writeOk).res.status == 201
    ensures var o := SignupStep(users, fullName, email, password, hasher, newId, now, lookupOk, writeOk);
            && password.Some? && hasher(password.value).Some?
            && o.users == users + [User(newId, fullName.value, email.value, hasher(password.value).value, DefaultProfilePic, now)]
            && o.res.body == ProfileBody(ProfileView(newId, fullName.value, email.value, DefaultProfilePic, None))
            && o.res.cookies == [IssueToken(newId)]
  {
  }

  /**
   * login: an unknown email is "Invalid credentials", a failed `bcrypt.compare`
   * is "Wrong Password" (both 400), a missing password makes bcrypt throw (500),
   * and success answers 200 with the profile including `createdAt` and issues the token.
   */
  function Login(users: seq<User>, email: string, password: Option<string>,
                 verify: (string, string) -> bool, lookupOk: bool): (res: Response)
    ensures res.status == 200 <==> lookupOk && password.Some? && FindByEmail(users, email).Some?
                                    && verify(password.value, FindByEmail(users, email).value.password)
    ensures !lookupOk ==> res == Reply(500, MessageBody(ServerError))
    ensures lookupOk && FindByEmail(users, email).None? ==> res == Reply(400, MessageBody(InvalidCredentials))
    ensures lookupOk && FindByEmail(users, email).Some? && password.None? ==> res == Reply(500, MessageBody(ServerError))
    ensures lookupOk && FindByEmail(users, email).Some? && password.Some?
            && !verify(password.value, FindByEmail(users, email).value.password)
            ==> res == Reply(400, MessageBody(WrongPassword))
    ensures res.status == 200 ==>
      var u := FindByEmail(users, email).value;
      && res.body == ProfileBody(ProfileView(u.id, u.fullName, u.email, u.profilePic, Some(u.createdAt)))
      && res.cookies == [IssueToken(u.id)]
    ensures res.status != 200 ==> res.cookies == [] && res.body.MessageBody?
  {
    if !lookupOk then Reply(500, MessageBody(ServerError))
    else
      var user := FindByEmail(users, email);
      if user.None? then Reply(400, MessageBody(InvalidCredentials))
      else if password.None? then Reply(500, MessageBody(ServerError))
      else if !verify(password.value, user.value.password) then Reply(400, MessageBody(WrongPassword))
      else
        var u := user.value;
        Response(200, ProfileBody(ProfileView(u.id, u.fullName, u.email, u.profilePic, Some(u.createdAt))), [IssueToken(u.id)])
  }

  /** logout: always 200, clearing the `jwt` cookie with a zero lifetime. */
  function Logout(): (res: Response)
    ensures res.status == 200 && res.cookies == [SetCookie("jwt", "", 0)]
  {
    Response(200, MessageBody("Logged out successfully."), [SetCookie("jwt", "", 0)])
  }

  /** checkAuth for the `_id` of the user `protectRoute` attached: 401 when it is falsy, 200 otherwise. */
  function CheckAuth(userId: string): (res: Response)
    ensures res.status == 401 <==> userId == ""
    ensures res.status == 200 <==> userId != ""
    ensures res.body.MessageBody?
  {
    if userId == "" then Reply(401, MessageBody("Unauthorized"))
    else Reply(200, MessageBody("User is authenticated"))
  }

  /** `findByIdAndUpdate(userId, { profilePic: url })`: only that user's picture changes. */
  function SetProfilePic(users: seq<User>, userId: ObjectId, url: string): (r: seq<User>)
    ensures |r| == |users|
    ensures forall i :: 0 <= i < |users| ==>
      r[i] == if users[i].id == userId then users[i].(profilePic := url) else users[i]
  {
    if users == [] then []
    else [if users[0].id == userId then users[0].(profilePic := url) else users[0]] + SetProfilePic(users[1..], userId, url)
  }

  /**
   * updateProfile: a falsy picture is 400 before anything else; then the upload,
   * then the update, which answers 404 when no user has that id.
   */
  function UpdateProfileStep(users: seq<User>, userId: ObjectId, profilePic: Option<string>,
                             upload: string -> Option<string>, writeOk: bool): Outcome
  {
    if !Truthy(profilePic) then Outcome(Reply(400, MessageBody(PictureRequired)), users)
    else
      var url := upload(profilePic.value);
      if url.None? || !writeOk then Outcome(Reply(500, MessageBody(ServerError)), users)
      else
        var found := FindById(users, userId);
        if found.None? then Outcome(Reply(404, MessageBody(UserNotFound)), users)
        else
          var updated := SetProfilePic(users, userId, url.value);
          Outcome(Reply(200, ProfileBody(ProfileOf(found.value.(profilePic := url.value)))), updated)
  }

  /**
   * updateProfile without a picture answers 400 and changes nothing; on success
   * exactly the caller's `profilePic` becomes the uploaded URL and every other
   * field of every user is kept.
   */
  lemma UpdateProfileOnlySetsPicture(users: seq<User>, userId: ObjectId, profilePic: Option<string>,
                                     upload: string -> Option<string>, writeOk: bool)
    ensures var o := UpdateProfileStep(users, userId, profilePic, upload, writeOk);
            && (!Truthy(profilePic) ==> o == Outcome(Reply(400, MessageBody(PictureRequired)), users))
            && (o.res.status != 200 ==> o.users == users)
            && (o.res.status == 200 ==>
                  && Truthy(profilePic) && upload(profilePic.value).Some?
                  && |o.users| == |users|
                  && (forall i :: 0 <= i < |users| && users[i].id != userId ==> o.users[i] == users[i])
                  && (forall i :: 0 <= i < |users| && users[i].id == userId ==>
                        o.users[i] == users[i].(profilePic := upload(profilePic.value).value)))
  {
  }

  /** The signup controller applied to the `users` collection. */
  method Signup(db: UserCollection, fullName: Option<string>, email: Option<string>, password: Option<string>,
                hasher: string -> Option<string>, newId: ObjectId, now: int, lookupOk: bool, writeOk: bool)
    returns (res: Response)
    modifies db
    ensures Outcome(res, db.users) == SignupStep(old(db.users), fullName, email, password, hasher, newId, now, lookupOk, writeOk)
  {
    var guard := SignupGuard(fullName, email, password);
    if guard.Some? {
      return guard.value;
    }
    if !lookupOk {
      return Reply(500, MessageBody(ServerError));
    }
    var existing := FindByEmail(db.users, email.value);
    if existing.Some? {
      return Reply(400, MessageBody(EmailExists));
    }
    var hashed := hasher(password.value);
    if hashed.None? {
      return Reply(500, MessageBody(ServerError));
    }
    var newUser := User(newId, fullName.value, email.value, hashed.value, DefaultProfilePic, now);
    var cookies := [IssueToken(newUser.id)];
    if !writeOk {
      return Response(500, MessageBody(ServerError), cookies);
    }
    db.users := db.users + [newUser];
    res := Response(201, ProfileBody(ProfileOf(newUser)), cookies);
  }

  /** The updateProfile controller applied to the `users` collection. */
  method UpdateProfile(db: UserCollection, userId: ObjectId, profilePic: Option<string>,
                       upload: string -> Option<string>, writeOk: bool)
    returns (res: Response)
    modifies db
    ensures Outcome(res, db.users) == UpdateProfileStep(old(db.users), userId, profilePic, upload, writeOk)
  {
    if !Truthy(profilePic) {
      return Reply(400, MessageBody(PictureRequired));
    }
    var url := upload(profilePic.value);
    if url.None? || !writeOk {
      return Reply(500, MessageBody(ServerError));
    }
    var found := FindById(db.users, userId);
    if found.None? {
      return Reply(404, MessageBody(UserNotFound));
    }
    db.users := SetProfilePic(db.users, userId, url.value);
    res := Reply(200, ProfileBody(ProfileOf(found.value.(profilePic := url.value))));
  }
}
