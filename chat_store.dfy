/**
 * frontend/src/store/useChatStore.js: the chat store. Fetches are split at
 * their `await` into `Start` and `Finish` steps; the other actions are single
 * steps. `newMessageHandlers` counts the `newMessage` listeners this store has
 * registered on the authentication store's socket.
 */
module ChatStore {
  import opened Wrappers
  import opened Users
  import opened MessageModel
  import opened AuthStore

  /** `n` copies of `m`: what `n` registered listeners append for one pushed message. */
  function Copies(m: Message, n: nat): (r: seq<Message>)
    ensures |r| == n
    ensures forall i :: 0 <= i < n ==> r[i] == m
  {
    if n == 0 then [] else [m] + Copies(m, n - 1)
  }

  class ChatStore {
    var messages: seq<Message>
    var users: seq<PublicUser>
    var selectedUser: Option<PublicUser>
    var isUserLoading: bool
    var isMessagesLoading: bool
    var newMessageHandlers: nat

    constructor()
      ensures messages == [] && users == [] && selectedUser.None?
      ensures !isUserLoading && !isMessagesLoading && newMessageHandlers == 0
    {
      messages := [];
      users := [];
      selectedUser := None;
      isUserLoading := false;
      isMessagesLoading := false;
      newMessageHandlers := 0;
    }

    /** getUsers up to its request. */
    method StartGetUsers()
      modifies this`isUserLoading
      ensures isUserLoading
    {
      isUserLoading := true;
    }

    /** getUsers after its request: the list is replaced on success and kept on failure; the flag comes down either way. */
    method FinishGetUsers(outcome: Result<seq<PublicUser>, AxiosError>)
      modifies this`users, this`isUserLoading
      ensures !isUserLoading
      ensures outcome.Success? ==> users == outcome.value
      ensures outcome.Failure? ==> users == old(users)
    {
      if outcome.Success? {
        users := outcome.value;
      }
      isUserLoading := false;
    }

    /** getMessages up to its request. */
    method StartGetMessages()
      modifies this`isMessagesLoading
      ensures isMessagesLoading
    {
      isMessagesLoading := true;
    }

    /** getMessages after its request: the history replaces the list wholesale on success; the flag comes down either way. */
    method FinishGetMessages(outcome: Result<seq<Message>, AxiosError>)
      modifies this`messages, this`isMessagesLoading
      ensures !isMessagesLoading
      ensures outcome.Success? ==> messages == outcome.value
      ensures outcome.Failure? ==> messages == old(messages)
    {
      if outcome.Success? {
        messages := outcome.value;
      }
      isMessagesLoading := false;
    }

    /**
     * sendMessage: the record the server returns is appended to the list as it
     * was when the request started; a failed request, or no selected user
     * (whose `_id` read throws), leaves the list as it was.
     */
    method SendMessage(outcome: Result<Message, AxiosError>)
      modifies this`messages
      ensures selectedUser.Some? && outcome.Success? ==> messages == old(messages) + [outcome.value]
      ensures selectedUser.None? || outcome.Failure? ==> messages == old(messages)
    {
      var snapshot := messages;
      if selectedUser.None? {
        return;
      }
      if outcome.Success? {
        messages := snapshot + [outcome.value];
      }
    }

    /**
     * subscribeToMessages: with a selected user, one more `newMessage` listener
     * is registered (reading `.on` of an absent socket throws, registering nothing).
     */
    method SubscribeToMessages(socketPresent: bool)
      modifies this`newMessageHandlers
      ensures selectedUser.Some? && socketPresent ==> newMessageHandlers == old(newMessageHandlers) + 1
      ensures selectedUser.None? || !socketPresent ==> newMessageHandlers == old(newMessageHandlers)
    {
      if selectedUser.None? || !socketPresent {
        return;
      }
      newMessageHandlers := newMessageHandlers + 1;
    }

    /** unsubscribeFromMessages: with a selected user, `socket.off("newMessage")` drops every listener. */
    method UnsubscribeFromMessages(socketPresent: bool)
      modifies this`newMessageHandlers
      ensures selectedUser.Some? && socketPresent ==> newMessageHandlers == 0
      ensures selectedUser.None? || !socketPresent ==> newMessageHandlers == old(newMessageHandlers)
    {
      if selectedUser.None? || !socketPresent {
        return;
      }
      newMessageHandlers := 0;
    }

    /**
     * A pushed `newMessage`: each registered listener appends it at the end,
     * whoever sent it; with one listener that is exactly one append.
     */
    method OnNewMessage(m: Message)
      modifies this`messages
      ensures messages == old(messages) + Copies(m, newMessageHandlers)
      ensures newMessageHandlers == 1 ==> messages == old(messages) + [m]
    {
      messages := messages + Copies(m, newMessageHandlers);
    }

    /** setSelectedUser: only the selection changes. */
    method SetSelectedUser(u: Option<PublicUser>)
      modifies this`selectedUser
      ensures selectedUser == u
    {
      selectedUser := u;
    }
  }
}
