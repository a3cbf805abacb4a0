/**
 * backend/src/controllers/message.controller.js: the sidebar query, the
 * conversation query and the send sequence (upload, save, optional push, reply).
 */
module MessageController {
  import opened Wrappers
  import opened JsText
  import opened MessageModel
  import opened Users
  import opened Http
  import Socket

  /** `m` belongs to the conversation between `a` and `b`, in either direction. */
  predicate Between(m: Message, a: ObjectId, b: ObjectId)
  {
    (m.senderId == a && m.receiverId == b) || (m.senderId == b && m.receiverId == a)
  }

  /** The `$or` filter of `getMessages`, in collection order. */
  function Conversation(all: seq<Message>, a: ObjectId, b: ObjectId): (r: seq<Message>)
    ensures forall m :: m in r <==> m in all && Between(m, a, b)
    ensures |r| <= |all|
  {
    if all == [] then []
    else (if Between(all[0], a, b) then [all[0]] else []) + Conversation(all[1..], a, b)
  }

  /** The filter keeps every stored copy of a message between the two users, and nothing else. */
  lemma {:induction false} ConversationCounts(all: seq<Message>, a: ObjectId, b: ObjectId)
    ensures forall m :: multiset(Conversation(all, a, b))[m] == if Between(m, a, b) then multiset(all)[m] else 0
  {
    if all != [] {
      ConversationCounts(all[1..], a, b);
      assert all == [all[0]] + all[1..];
      assert multiset(all) == multiset{all[0]} + multiset(all[1..]);
    }
  }

  /** Non-decreasing by creation time. */
  predicate SortedByCreatedAt(s: seq<Message>)
  {
    forall i, j :: 0 <= i < j < |s| ==> s[i].createdAt <= s[j].createdAt
  }

  /** Insert `m` before the first element created no earlier than it. */
  function Insert(m: Message, s: seq<Message>): seq<Message>
  {
    if s == [] then [m]
    else if m.createdAt <= s[0].createdAt then [m] + s
    else [s[0]] + Insert(m, s[1..])
  }

  /** Insertion adds exactly `m`. */
  lemma {:induction false} InsertPermutes(m: Message, s: seq<Message>)
    ensures multiset(Insert(m, s)) == multiset(s) + multiset{m}
  {
    if s != [] && m.createdAt > s[0].createdAt {
      InsertPermutes(m, s[1..]);
      assert s == [s[0]] + s[1..];
    }
  }

  /** A message no later than every element of a sorted list can go in front of it. */
  lemma ConsSorted(x: Message, t: seq<Message>)
    requires SortedByCreatedAt(t)
    requires forall k :: 0 <= k < |t| ==> x.createdAt <= t[k].createdAt
    ensures SortedByCreatedAt([x] + t)
  {
    var r := [x] + t;
    forall i, j | 0 <= i < j < |r| ensures r[i].createdAt <= r[j].createdAt {
      assert r[j] == t[j - 1];
      if i > 0 { assert r[i] == t[i - 1]; }
    }
  }

  /** Insertion keeps a lower bound on the creation times. */
  lemma {:induction false} InsertKeepsLowerBound(m: Message, s: seq<Message>, low: int)
    requires low <= m.createdAt
    requires forall k :: 0 <= k < |s| ==> low <= s[k].createdAt
    ensures forall k :: 0 <= k < |Insert(m, s)| ==> low <= Insert(m, s)[k].createdAt
  {
    if s != [] && m.createdAt > s[0].createdAt {
      assert forall k :: 0 <= k < |s[1..]| ==> s[1..][k] == s[k + 1];
      InsertKeepsLowerBound(m, s[1..], low);
      var r := Insert(m, s);
      assert r == [s[0]] + Insert(m, s[1..]);
      assert forall k :: 1 <= k < |r| ==> r[k] == Insert(m, s[1..])[k - 1];
    }
  }

  /** Insertion into a sorted list keeps it sorted. */
  lemma {:induction false} InsertSorted(m: Message, s: seq<Message>)
    requires SortedByCreatedAt(s)
    ensures SortedByCreatedAt(Insert(m, s))
  {
    if s == [] {
    } else if m.createdAt <= s[0].createdAt {
      ConsSorted(m, s);
    } else {
      var tail := s[1..];
      assert forall k :: 0 <= k < |tail| ==> tail[k] == s[k + 1];
      InsertSorted(m, tail);
      InsertKeepsLowerBound(m, tail, s[0].createdAt);
      ConsSorted(s[0], Insert(m, tail));
    }
  }

  /** `.sort({ createdAt: 1 })`: a sorted permutation. */
  function SortByCreatedAt(s: seq<Message>): (r: seq<Message>)
    ensures SortedByCreatedAt(r)
    ensures multiset(r) == multiset(s)
  {
    if s == [] then []
    else
      var sortedTail := SortByCreatedAt(s[1..]);
      InsertSorted(s[0], sortedTail);
      InsertPermutes(s[0], sortedTail);
      assert s == [s[0]] + s[1..];
      Insert(s[0], sortedTail)
  }

  /** The messages `getMessages` returns for the caller `me` and the route parameter `other`. */
  function History(all: seq<Message>, me: ObjectId, other: ObjectId): seq<Message>
  {
    SortByCreatedAt(Conversation(all, me, other))
  }

  /**
   * The history holds exactly the messages exchanged between the two users, in
   * either direction, each as often as it is stored, ordered by creation time.
   */
  lemma HistoryIsTheConversation(all: seq<Message>, me: ObjectId, other: ObjectId)
    ensures forall m :: m in History(all, me, other) <==> m in all && Between(m, me, other)
    ensures forall m :: multiset(History(all, me, other))[m] == if Between(m, me, other) then multiset(all)[m] else 0
    ensures SortedByCreatedAt(History(all, me, other))
  {
    var c := Conversation(all, me, other);
    ConversationCounts(all, me, other);
    forall m ensures m in History(all, me, other) <==> m in c {
      assert m in multiset(History(all, me, other)) <==> m in multiset(c);
    }
  }

  /** The conversation filter does not depend on which of the two users asks. */
  lemma {:induction false} ConversationSymmetric(all: seq<Message>, a: ObjectId, b: ObjectId)
    ensures Conversation(all, a, b) == Conversation(all, b, a)
  {
    if all != [] {
      ConversationSymmetric(all[1..], a, b);
    }
  }

  /** Both participants see the same history. */
  lemma HistorySymmetric(all: seq<Message>, a: ObjectId, b: ObjectId)
    ensures History(all, a, b) == History(all, b, a)
  {
    ConversationSymmetric(all, a, b);
  }

  /** Of two messages in a history, the strictly older one comes first. */
  lemma HistoryOrdersByTime(all: seq<Message>, me: ObjectId, other: ObjectId, i: nat, j: nat)
    requires i < |History(all, me, other)| && j < |History(all, me, other)|
    requires History(all, me, other)[i].createdAt < History(all, me, other)[j].createdAt
    ensures i < j
  {
  }

  /** `getMessages`: 200 with the history, or 500 when the query throws. */
  function GetMessages(all: seq<Message>, me: ObjectId, other: ObjectId, queryOk: bool): (res: Response)
    ensures queryOk ==> res.status == 200 && res.body == MessagesBody(History(all, me, other))
    ensures !queryOk ==> res.status == 500 && res.body == MessageBody("Internal server error")
  {
    if queryOk then Reply(200, MessagesBody(History(all, me, other)))
    else Reply(500, MessageBody("Internal server error"))
  }

  /** `getUsersForSidebar`: 200 with every user except the caller, or 500 when the query throws. */
  function GetUsersForSidebar(users: seq<User>, me: ObjectId, queryOk: bool): (res: Response)
    ensures queryOk ==> res.status == 200 && res.body.UsersBody?
    ensures queryOk ==> forall p :: p in res.body.users ==> p.id != me
    ensures queryOk ==> forall u :: u in users && u.id != me ==> Public(u) in res.body.users
    ensures queryOk ==> forall p :: p in res.body.users ==> exists u :: u in users && u.id != me && Public(u) == p
    ensures !queryOk ==> res.status == 500 && res.body == ErrorBody("Internal server error")
  {
    if queryOk then Reply(200, UsersBody(UsersExcept(users, me)))
    else Reply(500, ErrorBody("Internal server error"))
  }

  /** The `messages` collection. */
  class MessageCollection {
    var records: seq<Message>

    constructor(initial: seq<Message>)
      ensures records == initial
    {
      records := initial;
    }

    /** `newMessage.save()`: validate, stamp and append; `writeOk` is whether the database accepts the write. */
    method Save(f: MessageFields, id: ObjectId, now: int, writeOk: bool) returns (r: Option<Message>)
      modifies this
      ensures r.Some? <==> writeOk && Create(f, id, now).Success?
      ensures r.Some? ==> r == Some(Create(f, id, now).value) && records == old(records) + [r.value]
      ensures r.None? ==> records == old(records)
    {
      var created := Create(f, id, now);
      if writeOk && created.Success? {
        records := records + [created.value];
        r := Some(created.value);
      } else {
        r := None;
      }
    }
  }

  const InternalError: Response := Reply(500, MessageBody("Internal server error"))

  /**
   * `sendMessage` for the caller `me` and the route parameter `receiver`:
   * upload a truthy image (`upload` is Cloudinary, absent when it throws), build
   * and save the record, push it to the receiver's socket when the registry has
   * one, and answer 201 with the record. Any throw answers 500 before anything
   * was pushed.
   */
  method SendMessage(server: Socket.SocketServer, store: MessageCollection,
                     me: ObjectId, receiver: ObjectId, text: Option<string>, image: Option<string>,
                     upload: string -> Option<string>, newId: ObjectId, now: int, writeOk: bool)
    returns (res: Response)
    requires server.Valid()
    modifies server`emitted, store
    ensures server.Valid()
    ensures res.status == 201 <==> writeOk && (Truthy(image) ==> upload(image.value).Some?)
    ensures res.status != 201 ==> res == InternalError
    ensures res.status != 201 ==> store.records == old(store.records) && server.emitted == old(server.emitted)
    ensures res.status == 201 ==>
      && res.body.RecordBody?
      && var rec := res.body.record;
      && rec == Message(newId, me, receiver, text,
                        if Truthy(image) then upload(image.value) else None, now, now)
      && store.records == old(store.records) + [rec]
      && server.emitted == old(server.emitted) +
           (match Socket.Get(server.userSocketMap, receiver)
            case Some(sid) => [Socket.NewMessage(sid, rec)]
            case None => [])
  {
    var imageUrl: Option<string>;
    if Truthy(image) {
      var uploaded := upload(image.value);
      if uploaded.None? {
        return InternalError;
      }
      imageUrl := uploaded;
    } else {
      imageUrl := None;
    }
    var saved := store.Save(MessageFields(Some(me), Some(receiver), text, imageUrl), newId, now, writeOk);
    if saved.None? {
      return InternalError;
    }
    var rec := saved.value;
    var receiverSocketId := server.GetReceiverSocketId(receiver);
    if receiverSocketId.Some? {
      server.EmitNewMessage(receiverSocketId.value, rec);
    }
    res := Reply(201, RecordBody(rec));
  }
}
