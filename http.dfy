/** The parts of an Express response the controllers produce: status, JSON body and cookie writes. */
module Http {
  import opened Wrappers
  import opened Users
  import opened MessageModel

  /** The profile object returned by signup, login and updateProfile (never a password). */
  datatype ProfileView = ProfileView(id: string, fullName: string, email: string, profilePic: string,
                                     createdAt: Option<int>)

  /** JSON bodies; `MessageBody` is `{ message }` and `ErrorBody` is `{ error }`. */
  datatype Body =
    | MessageBody(message: string)
    | ErrorBody(error: string)
    | ProfileBody(profile: ProfileView)
    | UsersBody(users: seq<PublicUser>)
    | MessagesBody(messages: seq<Message>)
    | RecordBody(record: Message)

  /** A cookie write: `generateToken(userId, res)` (lib/utilis.js, not part of this model) or an explicit `res.cookie`. */
  datatype CookieWrite =
    | IssueToken(userId: string)
    | SetCookie(name: string, value: string, maxAgeMs: int)

  datatype Response = Response(status: int, body: Body, cookies: seq<CookieWrite>)

  /** The `message` key of the body, as `error.response.data?.message` reads it on the client. */
  function MessageField(b: Body): Option<string>
  {
    if b.MessageBody? then Some(b.message) else None
  }

  /** A response without cookie writes. */
  function Reply(status: int, body: Body): Response
  {
    Response(status, body, [])
  }
}
