/**
 * frontend/src/store/useAuthStore.js: the authentication store. Each action that
 * awaits a request is split at its `await` into a `Start` step (the loading flag
 * goes up) and a `Finish` step that receives the request's outcome; the other
 * actions are single steps. Toasts are recorded in the order they are shown.
 */
module AuthStore {
  import opened Wrappers
  import opened JsText
  import opened Http

  /**
   * How an axios request fails: the server answered with an error status (and
   * perhaps a `message` in the body), no response came back, or the request
   * could not be made (`reason` is `error.message`).
   */
  datatype AxiosError = HttpError(status: int, message: Option<string>) | NoResponse | Thrown(reason: string)

  datatype Toast = SuccessToast(text: string) | ErrorToast(text: string)

  /** The client side of a socket.io connection: the `userId` it was opened with and `socket.connected`. */
  datatype ClientSocket = ClientSocket(userId: string, connected: bool)

  const NetworkError: string := "Network error. Please check your connection."
  const UnexpectedError: string := "An unexpected error occurred"
  const ServerErrorText: string := "Server error. Please try again later."

  /**
   * The catch blocks of signup and login, parameterised by the default text and
   * the table of status texts: the server's `message` wins, then the status
   * text, then the default; no response is the network text; otherwise
   * `error.message`, or a fixed text when that is empty.
   */
  function ErrorMessage(e: AxiosError, fallback: string, statusText: map<int, string>): (m: string)
    ensures e.HttpError? && Truthy(e.message) ==> m == e.message.value
    ensures e.HttpError? && !Truthy(e.message) && e.status in statusText ==> m == statusText[e.status]
    ensures e.HttpError? && !Truthy(e.message) && e.status !in statusText ==> m == fallback
    ensures e.NoResponse? ==> m == NetworkError
    ensures e.Thrown? ==> m == if e.reason != "" then e.reason else UnexpectedError
    ensures fallback != "" && (forall s :: s in statusText ==> statusText[s] != "") ==> m != ""
  {
    match e
    case HttpError(status, message) =>
      if Truthy(message) then message.value
      else if status in statusText then statusText[status]
      else fallback
    case NoResponse => NetworkError
    case Thrown(reason) => if reason != "" then reason else UnexpectedError
  }

  const SignupStatusText: map<int, string> := map[
    400 := "Invalid signup data. Please check your input.",
    409 := "Email already exists. Please use a different email.",
    500 := ServerErrorText]

  const LoginStatusText: map<int, string> := map[
    400 := "Invalid login credentials. Please check your email and password.",
    401 := "Unauthorized. Please check your credentials.",
    500 := ServerErrorText]

  /** The message signup shows when its request fails. */
  function SignupErrorMessage(e: AxiosError): (m: string)
    ensures m != ""
    ensures e.HttpError? && Truthy(e.message) ==> m == e.message.value
    ensures e.HttpError? && !Truthy(e.message) && e.status == 400 ==> m == "Invalid signup data. Please check your input."
    ensures e.HttpError? && !Truthy(e.message) && e.status == 409 ==> m == "Email already exists. Please use a different email."
    ensures e.HttpError? && !Truthy(e.message) && e.status == 500 ==> m == ServerErrorText
    ensures e.HttpError? && !Truthy(e.message) && e.status !in {400, 409, 500} ==> m == "Error creating account"
  {
    ErrorMessage(e, "Error creating account", SignupStatusText)
  }

  /** The message login shows when its request fails. */
  function LoginErrorMessage(e: AxiosError): (m: string)
    ensures m != ""
    ensures e.HttpError? && Truthy(e.message) ==> m == e.message.value
    ensures e.HttpError? && !Truthy(e.message) && e.status == 400 ==> m == "Invalid login credentials. Please check your email and password."
    ensures e.HttpError? && !Truthy(e.message) && e.status == 401 ==> m == "Unauthorized. Please check your credentials."
    ensures e.HttpError? && !Truthy(e.message) && e.status == 500 ==> m == ServerErrorText
    ensures e.HttpError? && !Truthy(e.message) && e.status !in {400, 401, 500} ==> m == "Error logging in"
  {
    ErrorMessage(e, "Error logging in", LoginStatusText)
  }

  class AuthStore {
    var authUser: Option<ProfileView>
    var isSigningUp: bool
    var isLoggingIn: bool
    var isUpdatingProfile: bool
    var isCheckingAuth: bool
    var onlineUsers: seq<string>
    var socket: Option<ClientSocket>
    var toasts: seq<Toast>

    /** The store's initial state: nobody signed in, and the session check pending. */
    constructor()
      ensures authUser.None? && !isSigningUp && !isLoggingIn && !isUpdatingProfile && isCheckingAuth
      ensures onlineUsers == [] && socket.None? && toasts == []
    {
      authUser := None;
      isSigningUp := false;
      isLoggingIn := false;
      isUpdatingProfile := false;
      isCheckingAuth := true;
      onlineUsers := [];
      socket := None;
      toasts := [];
    }

    /** Whether `connectSocket` opens a connection: there is a user and no connected socket. */
    predicate CanConnect()
      reads this
    {
      authUser.Some? && !(socket.Some? && socket.value.connected)
    }

    /**
     * connectSocket: nothing without a user or with a connected socket;
     * otherwise a connection is opened with the user's id as `userId`.
     */
    method ConnectSocket()
      modifies this`socket
      ensures old(CanConnect()) ==> socket == Some(ClientSocket(authUser.value.id, true))
      ensures !old(CanConnect()) ==> socket == old(socket)
    {
      if authUser.None? || (socket.Some? && socket.value.connected) {
        return;
      }
      socket := Some(ClientSocket(authUser.value.id, true));
    }

    /** disconnectSocket: a connected socket is closed; the store keeps the object. */
    method DisconnectSocket()
      modifies this`socket
      ensures old(socket).Some? && old(socket).value.connected ==> socket == Some(old(socket).value.(connected := false))
      ensures !(old(socket).Some? && old(socket).value.connected) ==> socket == old(socket)
    {
      if socket.Some? && socket.value.connected {
        socket := Some(socket.value.(connected := false));
      }
    }

    /** The `getOnlineUsers` listener: the list is replaced by what was received. */
    method OnGetOnlineUsers(userIds: seq<string>)
      requires socket.Some?
      modifies this`onlineUsers
      ensures onlineUsers == userIds
    {
      onlineUsers := userIds;
    }

    /**
     * checkAuth after its request: `authUser` becomes the body's `user` field on
     * success and absent on failure, and the check is over either way.
     */
    method CheckAuth(outcome: Result<Option<ProfileView>, AxiosError>)
      modifies this`authUser, this`socket, this`isCheckingAuth
      ensures !isCheckingAuth
      ensures outcome.Failure? ==> authUser.None? && socket == old(socket)
      ensures outcome.Success? ==> authUser == outcome.value
      ensures outcome.Success? && outcome.value.Some? && !(old(socket).Some? && old(socket).value.connected)
              ==> socket == Some(ClientSocket(outcome.value.value.id, true))
      ensures (outcome.Success? && outcome.value.None?) || (old(socket).Some? && old(socket).value.connected)
              ==> socket == old(socket)
    {
      if outcome.Success? {
        authUser := outcome.value;
        ConnectSocket();
      } else {
        authUser := None;
      }
      isCheckingAuth := false;
    }

    /** signup up to its request. */
    method StartSignup()
      modifies this`isSigningUp
      ensures isSigningUp
    {
      isSigningUp := true;
    }

    /** signup after its request: sign in and connect, or show the selected error; the flag comes down either way. */
    method FinishSignup(outcome: Result<ProfileView, AxiosError>)
      modifies this`authUser, this`socket, this`toasts, this`isSigningUp
      ensures !isSigningUp
      ensures outcome.Success? ==> authUser == Some(outcome.value)
                                   && toasts == old(toasts) + [SuccessToast("Account created successfully")]
      ensures outcome.Success? && !(old(socket).Some? && old(socket).value.connected)
              ==> socket == Some(ClientSocket(outcome.value.id, true))
      ensures outcome.Success? && old(socket).Some? && old(socket).value.connected ==> socket == old(socket)
      ensures outcome.Failure? ==> authUser == old(authUser) && socket == old(socket)
                                   && toasts == old(toasts) + [ErrorToast(SignupErrorMessage(outcome.error))]
    {
      if outcome.Success? {
        authUser := Some(outcome.value);
        toasts := toasts + [SuccessToast("Account created successfully")];
        ConnectSocket();
      } else {
        toasts := toasts + [ErrorToast(SignupErrorMessage(outcome.error))];
      }
      isSigningUp := false;
    }

    /** login up to its request. */
    method StartLogin()
      modifies this`isLoggingIn
      ensures isLoggingIn
    {
      isLoggingIn := true;
    }

    /** login after its request: sign in and connect, or show the selected error; the flag comes down either way. */
    method FinishLogin(outcome: Result<ProfileView, AxiosError>)
      modifies this`authUser, this`socket, this`toasts, this`isLoggingIn
      ensures !isLoggingIn
      ensures outcome.Success? ==> authUser == Some(outcome.value)
                                   && toasts == old(toasts) + [SuccessToast("Logged in successfully")]
      ensures outcome.Success? && !(old(socket).Some? && old(socket).value.connected)
              ==> socket == Some(ClientSocket(outcome.value.id, true))
      ensures outcome.Success? && old(socket).Some? && old(socket).value.connected ==> socket == old(socket)
      ensures outcome.Failure? ==> authUser == old(authUser) && socket == old(socket)
                                   && toasts == old(toasts) + [ErrorToast(LoginErrorMessage(outcome.error))]
    {
      if outcome.Success? {
        authUser := Some(outcome.value);
        toasts := toasts + [SuccessToast("Logged in successfully")];
        ConnectSocket();
      } else {
        toasts := toasts + [ErrorToast(LoginErrorMessage(outcome.error))];
      }
      isLoggingIn := false;
    }

    /** logout after its request: on success sign out and close the socket; on failure only a toast. */
    method Logout(requestOk: bool)
      modifies this`authUser, this`socket, this`toasts
      ensures requestOk ==> authUser.None? && toasts == old(toasts) + [SuccessToast("Logged out successfully")]
      ensures requestOk && old(socket).Some? ==> socket == Some(old(socket).value.(connected := false))
      ensures requestOk && old(socket).None? ==> socket.None?
      ensures !requestOk ==> authUser == old(authUser) && socket == old(socket)
                             && toasts == old(toasts) + [ErrorToast("Error logging out")]
    {
      if requestOk {
        authUser := None;
        toasts := toasts + [SuccessToast("Logged out successfully")];
        DisconnectSocket();
      } else {
        toasts := toasts + [ErrorToast("Error logging out")];
      }
    }

    /** updateProfile up to its request. */
    method StartUpdateProfile()
      modifies this`isUpdatingProfile
      ensures isUpdatingProfile
    {
      isUpdatingProfile := true;
    }

    /** updateProfile after its request: store the returned profile, or show a fixed error; the flag comes down either way. */
    method FinishUpdateProfile(outcome: Result<ProfileView, AxiosError>)
      modifies this`authUser, this`toasts, this`isUpdatingProfile
      ensures !isUpdatingProfile
      ensures outcome.Success? ==> authUser == Some(outcome.value)
                                   && toasts == old(toasts) + [SuccessToast("Profile updated successfully")]
      ensures outcome.Failure? ==> authUser == old(authUser) && toasts == old(toasts) + [ErrorToast("Error updating profile")]
    {
      if outcome.Success? {
        authUser := Some(outcome.value);
        toasts := toasts + [SuccessToast("Profile updated successfully")];
      } else {
        toasts := toasts + [ErrorToast("Error updating profile")];
      }
      isUpdatingProfile := false;
    }
  }
}
