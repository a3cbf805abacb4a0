/**
 * The presence registry of backend/src/lib/socket.js.
 *
 * `userSocketMap` is a plain object from user id to socket id. User ids are
 * taken to be 24-hex-digit ObjectIds, as the client sends: such a key is
 * neither an array index nor an inherited property name, so `Object.keys`
 * lists the keys in insertion order, an overwrite keeps a key's position,
 * `delete` drops it and a read of a non-key is absent. The association list
 * `Entries` models exactly that. `Get` is the property read `userSocketMap[id]`.
 * The server object also records what it emits: the `getOnlineUsers` broadcasts
 * and the `newMessage` pushes sent to a single socket.
 */
module Socket {
  import opened Wrappers
  import opened JsText
  import opened MessageModel

  type UserId = string

  /** socket.io gives every connection a non-empty id. */
  type SocketId = s: string | s != "" witness "0"

  /** The registry's contents, in `Object.keys` order. */
  type Entries = seq<(UserId, SocketId)>

  /** `Object.keys(userSocketMap)`. */
  function Keys(es: Entries): (ks: seq<UserId>)
    ensures |ks| == |es|
    ensures forall i :: 0 <= i < |es| ==> ks[i] == es[i].0
  {
    if es == [] then [] else [es[0].0] + Keys(es[1..])
  }

  /** No user id occurs twice in a list of keys. */
  predicate NoDuplicates(ks: seq<UserId>)
  {
    forall i, j :: 0 <= i < j < |ks| ==> ks[i] != ks[j]
  }

  /** No user id occurs twice (an object has each property once). */
  predicate DistinctKeys(es: Entries)
  {
    NoDuplicates(Keys(es))
  }

  /** No socket id is held by two users. */
  predicate Injective(es: Entries)
  {
    forall i, j :: 0 <= i < j < |es| ==> es[i].1 != es[j].1
  }

  /** Some user is registered with socket `s`. */
  predicate Held(es: Entries, s: SocketId)
  {
    exists i :: 0 <= i < |es| && es[i].1 == s
  }

  /** `userSocketMap[u]`: the socket registered for `u`, or absent. */
  function Get(es: Entries, u: UserId): (r: Option<SocketId>)
    ensures r.None? <==> u !in Keys(es)
    ensures r.Some? ==> (u, r.value) in es
  {
    if es == [] then None
    else if es[0].0 == u then Some(es[0].1)
    else Get(es[1..], u)
  }

  /** With distinct keys, the entry at position `i` is what a read of its key returns. */
  lemma {:induction false} GetAt(es: Entries, i: nat)
    requires DistinctKeys(es) && i < |es|
    ensures Get(es, es[i].0) == Some(es[i].1)
  {
    if i > 0 {
      assert es[0].0 != es[i].0;
      assert es[1..][i - 1] == es[i];
      GetAt(es[1..], i - 1);
    }
  }

  /** `Keys` without `u`, order kept. */
  function Without(ks: seq<UserId>, u: UserId): (r: seq<UserId>)
    ensures forall v :: v in r <==> v in ks && v != u
    ensures NoDuplicates(ks) ==> NoDuplicates(r)
  {
    if ks == [] then []
    else
      var rest := Without(ks[1..], u);
      assert NoDuplicates(ks) ==> ks[0] !in ks[1..] && NoDuplicates(ks[1..]);
      (if ks[0] == u then [] else [ks[0]]) + rest
  }

  /**
   * `userSocketMap[u] = s`: the entry for `u` gets the value `s` in its old
   * position, or is appended when `u` was not a key; no other entry changes.
   */
  function Put(es: Entries, u: UserId, s: SocketId): (r: Entries)
    ensures Get(r, u) == Some(s)
    ensures forall v :: v != u ==> Get(r, v) == Get(es, v)
    ensures forall p :: p in r ==> p in es || p == (u, s)
  {
    if es == [] then [(u, s)]
    else if es[0].0 == u then [(u, s)] + es[1..]
    else [es[0]] + Put(es[1..], u, s)
  }

  /** An overwrite keeps the key order; a new key goes to the end of `Object.keys`. */
  lemma {:induction false} PutKeys(es: Entries, u: UserId, s: SocketId)
    ensures Keys(Put(es, u, s)) == if u in Keys(es) then Keys(es) else Keys(es) + [u]
  {
    if es != [] {
      var rest := Put(es[1..], u, s);
      assert Keys(es) == [es[0].0] + Keys(es[1..]);
      if es[0].0 == u {
        assert Keys(Put(es, u, s)) == [u] + Keys(es[1..]);
      } else {
        PutKeys(es[1..], u, s);
        assert Keys(Put(es, u, s)) == [es[0].0] + Keys(rest);
        assert u in Keys(es) <==> u in Keys(es[1..]);
      }
    }
  }

  /** Overwriting or adding one key keeps the keys distinct. */
  lemma PutKeepsKeysDistinct(es: Entries, u: UserId, s: SocketId)
    requires DistinctKeys(es)
    ensures DistinctKeys(Put(es, u, s))
  {
    PutKeys(es, u, s);
  }

  /** An entry whose socket no entry of `t` holds can go in front of an injective `t`. */
  lemma ConsInjective(p: (UserId, SocketId), t: Entries)
    requires Injective(t)
    requires forall k :: 0 <= k < |t| ==> t[k].1 != p.1
    ensures Injective([p] + t)
  {
    var r := [p] + t;
    forall i, j | 0 <= i < j < |r| ensures r[i].1 != r[j].1 {
      assert r[j] == t[j - 1];
      if i > 0 { assert r[i] == t[i - 1]; }
    }
  }

  /** Registering a socket nobody holds keeps socket ids unique. */
  lemma {:induction false} PutKeepsInjective(es: Entries, u: UserId, s: SocketId)
    requires Injective(es) && !Held(es, s)
    ensures Injective(Put(es, u, s))
  {
    if es == [] {
    } else {
      var tail := es[1..];
      assert forall k :: 0 <= k < |tail| ==> tail[k] == es[k + 1];
      assert Injective(tail);
      if es[0].0 == u {
        ConsInjective((u, s), tail);
      } else {
        PutKeepsInjective(tail, u, s);
        var rest := Put(tail, u, s);
        forall k | 0 <= k < |rest| ensures rest[k].1 != es[0].1 {
          assert rest[k] in rest;
          if rest[k] in tail {
            var n :| 0 <= n < |tail| && tail[n] == rest[k];
          }
        }
        ConsInjective(es[0], rest);
      }
    }
  }

  /** `delete userSocketMap[u]`: the entry for `u` disappears; every other entry, and the key order, is kept. */
  function Delete(es: Entries, u: UserId): (r: Entries)
    ensures Get(r, u) == None
    ensures forall v :: v != u ==> Get(r, v) == Get(es, v)
    ensures forall p :: p in r ==> p in es
  {
    if es == [] then []
    else
      var rest := Delete(es[1..], u);
      assert forall p :: p in es[1..] ==> p in es;
      if es[0].0 == u then rest else [es[0]] + rest
  }

  /** A delete keeps the order of the remaining keys. */
  lemma {:induction false} DeleteKeys(es: Entries, u: UserId)
    ensures Keys(Delete(es, u)) == Without(Keys(es), u)
  {
    if es != [] {
      var rest := Delete(es[1..], u);
      assert Keys(es) == [es[0].0] + Keys(es[1..]);
      assert Keys(es)[1..] == Keys(es[1..]);
      DeleteKeys(es[1..], u);
      if es[0].0 != u {
        assert Keys(Delete(es, u)) == [es[0].0] + Keys(rest);
      }
    }
  }

  /** Deleting a key keeps the keys distinct. */
  lemma DeleteKeepsKeysDistinct(es: Entries, u: UserId)
    requires DistinctKeys(es)
    ensures DistinctKeys(Delete(es, u))
  {
    DeleteKeys(es, u);
  }

  /** Deleting a key keeps socket ids unique. */
  lemma {:induction false} DeleteKeepsInjective(es: Entries, u: UserId)
    requires Injective(es)
    ensures Injective(Delete(es, u))
  {
    if es != [] {
      DeleteKeepsInjective(es[1..], u);
      var rest := Delete(es[1..], u);
      if es[0].0 != u {
        forall j | 0 <= j < |rest| ensures es[0].1 != rest[j].1 {
          assert rest[j] in rest;
          var k :| 0 <= k < |es[1..]| && es[1..][k] == rest[j];
          assert es[k + 1] == rest[j];
        }
        assert Delete(es, u) == [es[0]] + rest;
      }
    }
  }

  /**
   * `Object.keys(userSocketMap).find(id => userSocketMap[id] === s)`, read off the
   * entries: the key of the first entry, in key order, whose value is `s`.
   */
  function FirstHolder(es: Entries, s: SocketId): (r: Option<UserId>)
    ensures r.None? <==> !Held(es, s)
    ensures r.Some? ==> (r.value, s) in es
  {
    if es == [] then None
    else if es[0].1 == s then Some(es[0].0)
    else
      assert Held(es, s) <==> Held(es[1..], s) by {
        if Held(es, s) {
          var i :| 0 <= i < |es| && es[i].1 == s;
          assert es[1..][i - 1] == es[i];
        }
        if Held(es[1..], s) {
          var i :| 0 <= i < |es[1..]| && es[1..][i].1 == s;
          assert es[i + 1].1 == s;
        }
      }
      FirstHolder(es[1..], s)
  }

  /** The entry at `i` is the first one holding `s`, so the search returns its key. */
  lemma {:induction false} FirstHolderAt(es: Entries, s: SocketId, i: nat)
    requires i < |es| && es[i].1 == s
    requires forall k :: 0 <= k < i ==> es[k].1 != s
    ensures FirstHolder(es, s) == Some(es[i].0)
  {
    if i > 0 {
      assert es[1..][i - 1] == es[i];
      FirstHolderAt(es[1..], s, i - 1);
    }
  }

  /** The connection handler's update: `if (userId) userSocketMap[userId] = socket.id`. */
  function Register(es: Entries, query: Option<string>, s: SocketId): (r: Entries)
    ensures !Truthy(query) ==> r == es
    ensures Truthy(query) ==> Get(r, query.value) == Some(s)
    ensures Truthy(query) ==> forall v :: v != query.value ==> Get(r, v) == Get(es, v)
  {
    if Truthy(query) then Put(es, query.value, s) else es
  }

  /**
   * The disconnect handler's update: find the key holding `s` and, when one is
   * found, delete it.
   */
  function Unregister(es: Entries, s: SocketId): (r: Entries)
    ensures forall p :: p in r ==> p in es
  {
    match FirstHolder(es, s)
    case Some(u) => if u != "" then Delete(es, u) else es
    case None => es
  }

  /** Disconnecting a socket nobody holds leaves the registry as it was. */
  lemma UnregisterUnheld(es: Entries, s: SocketId)
    requires !Held(es, s)
    ensures Unregister(es, s) == es
  {
  }

  /**
   * Removal matches on the value: an entry whose socket is not `s` survives a
   * disconnect of `s` unchanged, whoever else is removed.
   */
  lemma UnregisterKeepsOtherSockets(es: Entries, s: SocketId, v: UserId)
    requires DistinctKeys(es)
    requires Get(es, v) != Some(s)
    ensures Get(Unregister(es, s), v) == Get(es, v)
  {
    match FirstHolder(es, s)
    case Some(u) =>
      var i :| 0 <= i < |es| && es[i] == (u, s);
      GetAt(es, i);
      assert u != v;
    case None =>
  }

  /**
   * A late disconnect of an older socket cannot evict a newer session: after
   * registering `u` with `c1` and then with `c2`, disconnecting `c1` leaves `u` on `c2`.
   */
  lemma StaleDisconnectIsHarmless(es: Entries, u: UserId, c1: SocketId, c2: SocketId)
    requires DistinctKeys(es) && u != "" && c1 != c2
    ensures var after := Unregister(Register(Register(es, Some(u), c1), Some(u), c2), c1);
            Get(after, u) == Some(c2)
  {
    var es1 := Put(es, u, c1);
    PutKeepsKeysDistinct(es, u, c1);
    var es2 := Put(es1, u, c2);
    PutKeepsKeysDistinct(es1, u, c2);
    assert Get(es2, u) == Some(c2);
    UnregisterKeepsOtherSockets(es2, c1, u);
  }

  /**
   * With one socket per key (socket ids fresh per connection) the search matches
   * at most one key, so after a disconnect no user is still listed on that socket
   * and exactly the holder's key left the online list.
   */
  lemma UnregisterRemovesHolder(es: Entries, s: SocketId, u: UserId)
    requires DistinctKeys(es) && Injective(es)
    requires forall p :: p in es ==> p.0 != ""
    requires (u, s) in es
    ensures !Held(Unregister(es, s), s)
    ensures Keys(Unregister(es, s)) == Without(Keys(es), u)
  {
    DeleteKeys(es, u);
    var i :| 0 <= i < |es| && es[i] == (u, s);
    forall k | 0 <= k < i ensures es[k].1 != s { }
    FirstHolderAt(es, s, i);
    var r := Delete(es, u);
    forall j | 0 <= j < |r| ensures r[j].1 != s {
      assert r[j] in r;
      var k :| 0 <= k < |es| && es[k] == r[j];
      assert Keys(r)[j] == r[j].0;
      assert u !in Keys(r);
      assert k != i;
    }
  }

  /** The registry invariant of `SocketServer`: distinct, truthy keys, and only sockets in `seen`. */
  ghost predicate Registered(es: Entries, seen: set<SocketId>)
  {
    DistinctKeys(es) && forall p :: p in es ==> p.0 != "" && p.1 in seen
  }

  /**
   * A connection keeps the registry invariant once its socket is seen, and it
   * keeps socket ids unique when that socket is fresh.
   */
  lemma RegisterKeepsInvariant(es: Entries, query: Option<string>, s: SocketId, seen: set<SocketId>)
    requires Registered(es, seen)
    ensures Registered(Register(es, query, s), seen + {s})
    ensures Injective(es) && s !in seen ==> Injective(Register(es, query, s))
  {
    if Truthy(query) {
      PutKeepsKeysDistinct(es, query.value, s);
      if Injective(es) && s !in seen {
        forall i | 0 <= i < |es| ensures es[i].1 != s {
          assert es[i] in es;
        }
        PutKeepsInjective(es, query.value, s);
      }
    }
  }

  /**
   * A disconnect keeps the registry invariant, and with unique socket ids it
   * leaves nobody on the closed socket.
   */
  lemma UnregisterKeepsInvariant(es: Entries, s: SocketId, seen: set<SocketId>)
    requires Registered(es, seen)
    ensures Registered(Unregister(es, s), seen)
    ensures Injective(es) ==> Injective(Unregister(es, s)) && !Held(Unregister(es, s), s)
  {
    match FirstHolder(es, s)
    case Some(u) =>
      DeleteKeepsKeysDistinct(es, u);
      if Injective(es) {
        DeleteKeepsInjective(es, u);
        UnregisterRemovesHolder(es, s, u);
      }
    case None =>
  }

  /** No entry holds a socket in `closed`. */
  predicate AvoidsClosed(es: Entries, closed: set<SocketId>)
  {
    forall p :: p in es ==> p.1 !in closed
  }

  /** A connection of a fresh socket keeps every entry off the closed sockets. */
  lemma RegisterAvoidsClosed(es: Entries, query: Option<string>, s: SocketId, closed: set<SocketId>)
    requires AvoidsClosed(es, closed) && s !in closed
    ensures AvoidsClosed(Register(es, query, s), closed)
  {
  }

  /** An entry list in which nobody holds `s` has no entry on `s`. */
  lemma NotHeldHasNoEntry(es: Entries, s: SocketId)
    requires !Held(es, s)
    ensures forall p :: p in es ==> p.1 != s
  {
    forall p | p in es ensures p.1 != s {
      var j :| 0 <= j < |es| && es[j] == p;
    }
  }

  /** With unique socket ids, a disconnect leaves every entry off the closed sockets, the new one included. */
  lemma UnregisterAvoidsClosed(es: Entries, s: SocketId, closed: set<SocketId>)
    requires DistinctKeys(es) && Injective(es) && AvoidsClosed(es, closed)
    requires forall p :: p in es ==> p.0 != ""
    ensures AvoidsClosed(Unregister(es, s), closed + {s})
  {
    var r := Unregister(es, s);
    match FirstHolder(es, s)
    case Some(u) =>
      UnregisterRemovesHolder(es, s, u);
    case None =>
      UnregisterUnheld(es, s);
    NotHeldHasNoEntry(r, s);
  }

  /** Everything a connection keeps: the registry invariant, and liveness for a fresh socket. */
  lemma ConnectionKeepsInvariants(es: Entries, query: Option<string>, s: SocketId, seen: set<SocketId>, closed: set<SocketId>)
    requires Registered(es, seen) && closed <= seen
    ensures Registered(Register(es, query, s), seen + {s}) && closed <= seen + {s}
    ensures Injective(es) && s !in seen ==> Injective(Register(es, query, s))
    ensures Injective(es) && AvoidsClosed(es, closed) && s !in seen
            ==> Injective(Register(es, query, s)) && AvoidsClosed(Register(es, query, s), closed)
  {
    RegisterKeepsInvariant(es, query, s, seen);
    if s !in seen && AvoidsClosed(es, closed) {
      RegisterAvoidsClosed(es, query, s, closed);
    }
  }

  /** Everything the server sends: online-list broadcasts and pushes to one socket. */
  datatype Emission =
    | GetOnlineUsers(userIds: seq<UserId>)
    | NewMessage(to: SocketId, message: Message)

  /** The socket.io server together with the module-level `userSocketMap`. */
  class SocketServer {
    var userSocketMap: Entries
    var emitted: seq<Emission>
    /** Every socket id the transport has handed to a connection handler so far. */
    ghost var seen: set<SocketId>
    /** Every socket id whose disconnect handler has run. */
    ghost var closed: set<SocketId>

    /** Keys are distinct and truthy, and every registered socket was really connected. */
    ghost predicate Valid()
      reads this
    {
      Registered(userSocketMap, seen) && closed <= seen
    }

    /** Socket ids are unique and no entry holds a socket that has disconnected. */
    ghost predicate Live()
      reads this
    {
      Injective(userSocketMap) && AvoidsClosed(userSocketMap, closed)
    }

    constructor()
      ensures Valid() && Live() && userSocketMap == [] && emitted == [] && seen == {} && closed == {}
    {
      userSocketMap, emitted, seen, closed := [], [], {}, {};
    }

    /** `getReceiverSocketId(userId)`: a pure read that is absent exactly for unregistered users. */
    function GetReceiverSocketId(userId: UserId): (r: Option<SocketId>)
      reads this
      ensures r.None? <==> userId !in Keys(userSocketMap)
      ensures r.Some? ==> (userId, r.value) in userSocketMap
    {
      Get(userSocketMap, userId)
    }

    /** The "connection" handler: register, then broadcast the keys. */
    method OnConnection(socketId: SocketId, queryUserId: Option<string>)
      requires Valid()
      modifies this
      ensures Valid()
      ensures userSocketMap == Register(old(userSocketMap), queryUserId, socketId)
      ensures emitted == old(emitted) + [GetOnlineUsers(Keys(userSocketMap))]
      ensures seen == old(seen) + {socketId}
      ensures closed == old(closed)
      ensures old(Injective(userSocketMap)) && socketId !in old(seen) ==> Injective(userSocketMap)
      ensures old(Live()) && socketId !in old(seen) ==> Live()
    {
      var es := userSocketMap;
      var next := es;
      if Truthy(queryUserId) {
        next := Put(es, queryUserId.value, socketId);
      }
      ghost var seen0 := seen;
      seen := seen + {socketId};
      userSocketMap := next;
      ConnectionKeepsInvariants(es, queryUserId, socketId, seen0, closed);
      emitted := emitted + [GetOnlineUsers(Keys(next))];
    }

    /** The search of the disconnect handler: `Object.keys(userSocketMap).find(id => userSocketMap[id] === socketId)`. */
    method FindUserBySocket(socketId: SocketId) returns (found: Option<UserId>)
      requires Valid()
      ensures found == FirstHolder(userSocketMap, socketId)
      ensures found.Some? ==> GetReceiverSocketId(found.value) == Some(socketId)
    {
      var es := userSocketMap;
      assert DistinctKeys(es);
      var keys := Keys(es);
      found := None;
      var i := 0;
      while i < |keys| && found.None?
        invariant 0 <= i <= |keys|
        invariant found.None? ==> forall k :: 0 <= k < i ==> es[k].1 != socketId
        invariant found.Some? ==> found == FirstHolder(es, socketId) && Get(es, found.value) == Some(socketId)
      {
        GetAt(es, i);
        if Get(es, keys[i]) == Some(socketId) {
          FirstHolderAt(es, socketId, i);
          found := Some(keys[i]);
        }
        i := i + 1;
      }
    }

    /**
     * The "disconnect" handler: find the key holding this socket, delete it, then
     * broadcast the keys. It is registered on the socket inside the connection
     * handler, so it only runs for a socket that connected.
     */
    method OnDisconnect(socketId: SocketId)
      requires Valid() && socketId in seen
      modifies this`userSocketMap, this`emitted, this`closed
      ensures Valid()
      ensures closed == old(closed) + {socketId}
      ensures old(Live()) ==> Live()
      ensures userSocketMap == Unregister(old(userSocketMap), socketId)
      ensures emitted == old(emitted) + [GetOnlineUsers(Keys(userSocketMap))]
      ensures old(Injective(userSocketMap)) ==> Injective(userSocketMap) && !Held(userSocketMap, socketId)
    {
      var es := userSocketMap;
      var userId := FindUserBySocket(socketId);
      UnregisterKeepsInvariant(es, socketId, seen);
      if Injective(es) && AvoidsClosed(es, closed) {
        UnregisterAvoidsClosed(es, socketId, closed);
      }
      var next := es;
      if userId.Some? && userId.value != "" {
        next := Delete(es, userId.value);
      }
      assert next == Unregister(es, socketId);
      userSocketMap := next;
      closed := closed + {socketId};
      emitted := emitted + [GetOnlineUsers(Keys(next))];
    }

    /** `io.to(to).emit("newMessage", m)`. */
    method EmitNewMessage(to: SocketId, m: Message)
      modifies this`emitted
      ensures emitted == old(emitted) + [NewMessage(to, m)]
    {
      emitted := emitted + [NewMessage(to, m)];
    }
  }
}
