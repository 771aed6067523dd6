/** The message routes: `GET /:id`, `POST /` and `POST /:id/read`.

    Each handler is specified by a function from the store before the request
    to its response and the store after it (an `Outcome`); the class
    `MessageStore` holds the store as mutable fields, and the handler methods
    at the end of the module are proved against those functions. The
    authenticated username is an input: the login gate in front of the routes
    is not part of this model. */
module Messages {
  import opened Common

  /** A message row as `Message.get` returns it (sender and recipient are
      reduced to their usernames). */
  datatype Message = Message(
    id: int,
    fromUsername: Username,
    toUsername: Username,
    body: string,
    sentAt: Time,
    readAt: Option<Time>)

  /** The `{id, read_at}` payload returned by `Message.markRead`. */
  datatype Receipt = Receipt(id: int, readAt: Option<Time>)

  /** The JSON body of `POST /`. `claimedFrom` is a `from_username` field a
      client may add; the route never reads it. */
  datatype PostBody = PostBody(toUsername: string, body: string, claimedFrom: Option<Username>)

  /** The message table and the next id its serial column hands out. */
  datatype Store = Store(messages: map<int, Message>, nextId: int)

  /** A handler's response together with the store it leaves behind. */
  datatype Outcome<T> = Outcome(response: Result<T>, after: Store)

  const CannotRead := ExpressError("Cannot read this message", 401)
  const CannotMarkRead := ExpressError("You cannot mark this message read", 401)

  /** What evaluating `req.bod.to_username` throws: `req.bod` is undefined. */
  const BodTypeError := Raised("TypeError: Cannot read properties of undefined (reading 'to_username')")

  /** Every stored message sits under its own id, below the next id. */
  ghost predicate WellFormed(s: Store)
  {
    forall id :: id in s.messages ==> id < s.nextId && s.messages[id].id == id
  }

  /** Who may read a message: its sender or its recipient. */
  predicate MayRead(m: Message, user: Username)
  {
    user == m.fromUsername || user == m.toUsername
  }

  /** Who may mark a message read: its recipient only. */
  predicate MayMarkRead(m: Message, user: Username)
  {
    user == m.toUsername
  }

  /** `a` and `b` agree on every field but `readAt`. */
  predicate SameExceptReadAt(a: Message, b: Message)
  {
    a.(readAt := b.readAt) == b
  }

  // ---------------------------------------------------------------------
  // The store operations of the message model, modelled minimally, with
  // their failures and the clock as parameters.
  // ---------------------------------------------------------------------

  /** `Message.get(id)`: the stored row, or `fault` when the database call
      itself fails, or the lookup's own failure for an id it does not hold. */
  function Lookup(s: Store, id: int, fault: Option<Error>): (r: Result<Message>)
    ensures r.Ok? <==> fault.None? && id in s.messages
    ensures r.Ok? ==> r.value == s.messages[id]
    ensures fault.Some? ==> r == Err(fault.value)
    ensures fault.None? && id !in s.messages ==> r == Err(LookupFailed(id))
  {
    if fault.Some? then Err(fault.value)
    else if id in s.messages then Ok(s.messages[id])
    else Err(LookupFailed(id))
  }

  /** `Message.markRead(id)`: stamps that message's `read_at` with the
      database clock `now`, or fails with `fault` and changes nothing. The
      routes call it only for an id `Message.get` has just found. */
  function MarkReadOp(s: Store, id: int, now: Time, fault: Option<Error>): (o: Outcome<Receipt>)
    requires id in s.messages
    ensures o.after.nextId == s.nextId && o.after.messages.Keys == s.messages.Keys
    ensures o.response.Ok? ==> o.response.value == Receipt(id, Some(now)) && o.response.value.readAt == o.after.messages[id].readAt
    ensures forall k :: k in s.messages && k != id ==> o.after.messages[k] == s.messages[k]
    ensures SameExceptReadAt(o.after.messages[id], s.messages[id])
    ensures o.response.Err? <==> fault.Some?
    ensures o.response.Err? ==> o.response.error == fault.value && o.after == s
  {
    if fault.Some? then Outcome(Err(fault.value), s)
    else
      var m := s.messages[id].(readAt := Some(now));
      Outcome(Ok(Receipt(id, m.readAt)), s.(messages := s.messages[id := m]))
  }

  /** `Message.create({from_username, to_username, body})`: inserts an unread
      message under the next id, stamped `now`, or fails with `fault` (a
      missing recipient, a database error) and changes nothing. */
  function CreateOp(s: Store, from: Username, to: Username, body: string, now: Time, fault: Option<Error>): (o: Outcome<Message>)
    ensures o.response.Ok? ==>
      var m := o.response.value;
      && m == Message(s.nextId, from, to, body, now, None)
      && o.after == Store(s.messages[m.id := m], s.nextId + 1)
    ensures o.response.Err? <==> fault.Some?
    ensures o.response.Err? ==> o.response.error == fault.value && o.after == s
    ensures WellFormed(s) ==> WellFormed(o.after)
    ensures WellFormed(s) ==> forall k :: k in s.messages ==> k in o.after.messages && o.after.messages[k] == s.messages[k]
  {
    if fault.Some? then Outcome(Err(fault.value), s)
    else
      var m := Message(s.nextId, from, to, body, now, None);
      Outcome(Ok(m), Store(s.messages[s.nextId := m], s.nextId + 1))
  }

  // ---------------------------------------------------------------------
  // The three handlers, as functions of the store.
  // ---------------------------------------------------------------------

  /** `GET /:id`: the message, for its sender or recipient only.
      `lookupFault` is a failure of the database call behind `Message.get`. */
  function GetMessage(s: Store, requester: Username, id: int, lookupFault: Option<Error>): (r: Result<Message>)
    // readable by exactly the sender and the recipient, when the lookup succeeds
    ensures r.Ok? <==> lookupFault.None? && id in s.messages && MayRead(s.messages[id], requester)
    // the response is the record the lookup produced, untouched
    ensures r.Ok? ==> r == Lookup(s, id, lookupFault) && r.value == s.messages[id]
    // the lookup runs first: its failures are forwarded unchanged and win over the permission check
    ensures lookupFault.Some? ==> r == Err(lookupFault.value)
    ensures lookupFault.None? && id !in s.messages ==> r == Err(LookupFailed(id))
    // anyone else is refused with 401, not 403
    ensures lookupFault.None? && id in s.messages && !MayRead(s.messages[id], requester) ==>
      r == Err(CannotRead) && r.error.status == 401
  {
    match Lookup(s, id, lookupFault)
    case Err(e) => Err(e)
    case Ok(m) =>
      if m.fromUsername != requester && m.toUsername != requester then Err(CannotRead)
      else Ok(m)
  }

  /** `POST /:id/read`: marks the message read, for its recipient only.
      `lookupFault` and `fault` are failures of the database calls behind
      `Message.get` and `Message.markRead`. */
  function MarkReadStep(s: Store, requester: Username, id: int, now: Time, lookupFault: Option<Error>, fault: Option<Error>)
    : (o: Outcome<Receipt>)
    // the lookup runs first: its failures are forwarded unchanged and the store is unchanged
    ensures lookupFault.Some? ==> o == Outcome(Err(lookupFault.value), s)
    ensures lookupFault.None? && id !in s.messages ==> o == Outcome(Err(LookupFailed(id)), s)
    // the sender or a third party gets 401 and the store is unchanged
    ensures lookupFault.None? && id in s.messages && !MayMarkRead(s.messages[id], requester) ==>
      o == Outcome(Err(CannotMarkRead), s) && o.response.error.status == 401
    // the recipient's request reaches markRead with that id, and its result is the response
    ensures lookupFault.None? && id in s.messages && MayMarkRead(s.messages[id], requester) ==>
      o == MarkReadOp(s, id, now, fault)
    // only the recipient's request changes the store, and only that message's read_at
    ensures o.after != s ==> id in s.messages && MayMarkRead(s.messages[id], requester)
    ensures o.after.nextId == s.nextId && o.after.messages.Keys == s.messages.Keys
    ensures forall k :: k in s.messages ==>
      SameExceptReadAt(o.after.messages[k], s.messages[k]) && (k != id ==> o.after.messages[k] == s.messages[k])
    ensures o.response.Ok? <==>
      lookupFault.None? && id in s.messages && MayMarkRead(s.messages[id], requester) && fault.None?
    ensures o.response.Err? ==> o.after == s
  {
    match Lookup(s, id, lookupFault)
    case Err(e) => Outcome(Err(e), s)
    case Ok(m) =>
      if m.toUsername != requester then Outcome(Err(CannotMarkRead), s)
      else MarkReadOp(s, id, now, fault)
  }

  /** `POST /` as intended: the sender is always the authenticated requester.
      This is the rule the route's comment and its `from_username` line state;
      the code as written never gets this far (see `PostStepAsWritten`). */
  function PostStep(s: Store, requester: Username, post: PostBody, now: Time, fault: Option<Error>): (o: Outcome<Message>)
    // a created message is sent by the requester, to the requested recipient, unread
    ensures o.response.Ok? ==>
      var m := o.response.value;
      && m.fromUsername == requester && m.toUsername == post.toUsername && m.body == post.body
      && m.sentAt == now && m.readAt == None
      && o.after.messages == s.messages[m.id := m]
    ensures WellFormed(s) && o.response.Ok? ==> o.response.value.id !in s.messages
    // every message the store gains has the requester as its sender
    ensures forall k :: k in o.after.messages && k !in s.messages ==> o.after.messages[k].fromUsername == requester
    // existing messages are untouched
    ensures WellFormed(s) ==> WellFormed(o.after)
    ensures WellFormed(s) ==> forall k :: k in s.messages ==> k in o.after.messages && o.after.messages[k] == s.messages[k]
    // a failure of the insert is forwarded unchanged and the store is unchanged
    ensures o.response.Err? <==> fault.Some?
    ensures o.response.Err? ==> o.response.error == fault.value && o.after == s
  {
    CreateOp(s, requester, post.toUsername, post.body, now, fault)
  }

  /** `POST /` as written: building the argument of `Message.create` reads
      `req.bod.to_username`, and `req.bod` is undefined, so a TypeError is
      thrown before the insert runs and goes to the error path. */
  function PostStepAsWritten(s: Store, requester: Username, post: PostBody, now: Time, fault: Option<Error>): (o: Outcome<Message>)
    ensures o.response == Err(BodTypeError) && o.after == s
  {
    Outcome(Err(BodTypeError), s)
  }

  /** Whatever `from_username` the client puts in the body, the same message is created. */
  lemma ClaimedSenderIgnored(s: Store, requester: Username, post: PostBody, now: Time, fault: Option<Error>, claimed: Option<Username>)
    ensures PostStep(s, requester, post.(claimedFrom := claimed), now, fault) == PostStep(s, requester, post, now, fault)
  {
  }

  /** The typo loses every message: where the intended route creates one, the
      route as written answers with the TypeError. */
  lemma PostAsWrittenNeverCreates(s: Store, requester: Username, post: PostBody, now: Time)
    requires WellFormed(s)
    ensures PostStep(s, requester, post, now, None).response.Ok?
    ensures PostStepAsWritten(s, requester, post, now, None).response.Err?
    ensures PostStepAsWritten(s, requester, post, now, None).after.messages == s.messages
    ensures PostStep(s, requester, post, now, None).after.messages != s.messages
  {
  }

  // ---------------------------------------------------------------------
  // The store as an object, and the handlers as methods over it.
  // ---------------------------------------------------------------------

  /** The message table, updated in place by the create and mark-read operations. */
  class MessageStore {
    var messages: map<int, Message>
    var nextId: int

    function State(): Store
      reads this
    {
      Store(messages, nextId)
    }

    ghost predicate Valid()
      reads this
    {
      WellFormed(State())
    }

    /** An empty table whose serial column starts at 1. */
    constructor ()
      ensures Valid() && State() == Store(map[], 1)
    {
      messages := map[];
      nextId := 1;
    }

    /** `Message.get(id)`. */
    function Get(id: int, fault: Option<Error>): (r: Result<Message>)
      reads this
      ensures r.Ok? <==> fault.None? && id in messages
      ensures r.Ok? ==> r.value == messages[id]
      ensures r.Err? ==> r.error == (if fault.Some? then fault.value else LookupFailed(id))
    {
      Lookup(State(), id, fault)
    }

    /** `Message.markRead(id)`. */
    method MarkRead(id: int, now: Time, fault: Option<Error>) returns (r: Result<Receipt>)
      requires id in messages
      modifies this
      ensures Outcome(r, State()) == MarkReadOp(old(State()), id, now, fault)
      ensures old(Valid()) ==> Valid()
    {
      if fault.Some? {
        return Err(fault.value);
      }
      var m := messages[id].(readAt := Some(now));
      messages := messages[id := m];
      r := Ok(Receipt(id, m.readAt));
    }

    /** `Message.create({from_username, to_username, body})`. */
    method Create(from: Username, to: Username, body: string, now: Time, fault: Option<Error>) returns (r: Result<Message>)
      modifies this
      ensures Outcome(r, State()) == CreateOp(old(State()), from, to, body, now, fault)
      ensures old(Valid()) ==> Valid()
    {
      if fault.Some? {
        return Err(fault.value);
      }
      var m := Message(nextId, from, to, body, now, None);
      messages := messages[nextId := m];
      nextId := nextId + 1;
      r := Ok(m);
    }
  }

  /** The `GET /:id` handler: reads the store and changes nothing. */
  method ReadMessage(store: MessageStore, requester: Username, id: int, lookupFault: Option<Error>) returns (r: Result<Message>)
    ensures r == GetMessage(store.State(), requester, id, lookupFault)
  {
    var found := store.Get(id, lookupFault);
    if found.Err? {
      return Err(found.error);
    }
    var message := found.value;
    if message.fromUsername != requester && message.toUsername != requester {
      return Err(CannotRead);
    }
    r := Ok(message);
  }

  /** The `POST /:id/read` handler. */
  method MarkMessageRead(store: MessageStore, requester: Username, id: int, now: Time, lookupFault: Option<Error>, fault: Option<Error>)
    returns (r: Result<Receipt>)
    modifies store
    ensures Outcome(r, store.State()) == MarkReadStep(old(store.State()), requester, id, now, lookupFault, fault)
    ensures r.Err? ==> store.State() == old(store.State())
    ensures old(store.Valid()) ==> store.Valid()
  {
    var found := store.Get(id, lookupFault);
    if found.Err? {
      return Err(found.error);
    }
    if found.value.toUsername != requester {
      return Err(CannotMarkRead);
    }
    r := store.MarkRead(id, now, fault);
  }

  /** The `POST /` handler, with the intended `req.body.to_username`. */
  method PostMessage(store: MessageStore, requester: Username, post: PostBody, now: Time, fault: Option<Error>)
    returns (r: Result<Message>)
    modifies store
    ensures Outcome(r, store.State()) == PostStep(old(store.State()), requester, post, now, fault)
    ensures r.Ok? ==> r.value.fromUsername == requester
    ensures old(store.Valid()) ==> store.Valid()
  {
    r := store.Create(requester, post.toUsername, post.body, now, fault);
  }
}
