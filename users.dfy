/**
 * The user documents the controllers read and write. The user schema itself
 * (backend/src/models/user.model.js) is not part of this model: only the fields the
 * controllers touch are kept, and a new user's default picture is a named constant.
 */
module Users {
  import opened Wrappers

  type ObjectId = string

  /** A stored user; `password` holds the bcrypt hash. */
  datatype User = User(id: ObjectId, fullName: string, email: string, password: string,
                       profilePic: string, createdAt: int)

  /** A user document read with `.select("-password")`. */
  datatype PublicUser = PublicUser(id: ObjectId, fullName: string, email: string,
                                   profilePic: string, createdAt: int)

  /** The profile picture a new user starts with (the schema's default). */
  const DefaultProfilePic: string := ""

  /** The `.select("-password")` projection. */
  function Public(u: User): PublicUser
  {
    PublicUser(u.id, u.fullName, u.email, u.profilePic, u.createdAt)
  }

  /** `User.find({ _id: { $ne: me } }).select("-password")`, in collection order. */
  function UsersExcept(users: seq<User>, me: ObjectId): (r: seq<PublicUser>)
    ensures |r| <= |users|
    ensures forall p :: p in r ==> p.id != me
    ensures forall u :: u in users && u.id != me ==> Public(u) in r
    ensures forall p :: p in r ==> exists u :: u in users && Public(u) == p
  {
    if users == [] then []
    else
      var rest := UsersExcept(users[1..], me);
      assert forall u :: u in users[1..] ==> u in users;
      if users[0].id != me then [Public(users[0])] + rest else rest
  }

  /** `User.findOne({ email })`: the first user in collection order with that email. */
  function FindByEmail(users: seq<User>, email: string): (r: Option<User>)
    ensures r.Some? ==> r.value in users && r.value.email == email
    ensures r.None? <==> forall u :: u in users ==> u.email != email
  {
    if users == [] then None
    else if users[0].email == email then Some(users[0])
    else FindByEmail(users[1..], email)
  }

  /** `User.findById(id)`: the first user with that id. */
  function FindById(users: seq<User>, id: ObjectId): (r: Option<User>)
    ensures r.Some? ==> r.value in users && r.value.id == id
    ensures r.None? <==> forall u :: u in users ==> u.id != id
  {
    if users == [] then None
    else if users[0].id == id then Some(users[0])
    else FindById(users[1..], id)
  }

  /** The `users` collection. */
  class UserCollection {
    var users: seq<User>

    constructor(initial: seq<User>)
      ensures users == initial
    {
      users := initial;
    }
  }
}
