/**
 * The message record of backend/src/models/message.model.js: two required user
 * references, an optional text, an optional image URL and the two timestamps the
 * schema's `timestamps` option attaches.
 */
module MessageModel {
  import opened Wrappers

  /** A document id (a MongoDB ObjectId, kept opaque). */
  type ObjectId = string

  /** The fields handed to `new Message({...})`; any of them may be left undefined. */
  datatype MessageFields = MessageFields(senderId: Option<ObjectId>, receiverId: Option<ObjectId>,
                                         text: Option<string>, image: Option<string>)

  /** A saved message document. */
  datatype Message = Message(id: ObjectId, senderId: ObjectId, receiverId: ObjectId,
                             text: Option<string>, image: Option<string>,
                             createdAt: int, updatedAt: int)

  /** A schema validation failure, naming the required paths that were left undefined. */
  datatype ValidationError = ValidationError(missing: set<string>)

  /** Required paths of the schema that `f` leaves undefined. */
  function MissingPaths(f: MessageFields): set<string>
  {
    (if f.senderId.None? then {"senderId"} else {}) + (if f.receiverId.None? then {"receiverId"} else {})
  }

  /**
   * Validating and stamping a new document at time `now` under the fresh id `id`:
   * of the schema's checks, it models the required references, and fails exactly
   * when one is missing; otherwise it keeps every field it was given and sets both
   * timestamps to `now`. A present id that fails the ObjectId cast is a failed write.
   */
  function Create(f: MessageFields, id: ObjectId, now: int): (r: Result<Message, ValidationError>)
    ensures r.Failure? <==> f.senderId.None? || f.receiverId.None?
    ensures r.Failure? ==> ("senderId" in r.error.missing <==> f.senderId.None?)
    ensures r.Failure? ==> ("receiverId" in r.error.missing <==> f.receiverId.None?)
    ensures r.Success? ==> r.value.senderId == f.senderId.value && r.value.receiverId == f.receiverId.value
    ensures r.Success? ==> r.value.text == f.text && r.value.image == f.image && r.value.id == id
    ensures r.Success? ==> r.value.createdAt == now && r.value.updatedAt == now
  {
    var missing := MissingPaths(f);
    if missing != {} then
      Failure(ValidationError(missing))
    else
      Success(Message(id, f.senderId.value, f.receiverId.value, f.text, f.image, now, now))
  }

  /** Neither text nor image is required: a message with both absent passes validation. */
  lemma EmptyMessageIsValid(sender: ObjectId, receiver: ObjectId, id: ObjectId, now: int)
    ensures Create(MessageFields(Some(sender), Some(receiver), None, None), id, now).Success?
  {
  }
}
