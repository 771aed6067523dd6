/** Sequences of requests against the message routes, and what holds of the
    store after any such sequence: messages keep their sender, recipient,
    body and send time; only the recipient's mark-read changes `read_at`; a
    new message's sender is the requester who posted it. */
module MessageTraces {
  import opened Common
  import opened Messages

  /** One authenticated request to the message routes. `now`, `lookupFault`
      and `fault` are what the database clock and the database calls answer
      for that request. */
  datatype Request =
    | GetRequest(requester: Username, id: int, lookupFault: Option<Error>)
    | PostRequest(requester: Username, post: PostBody, now: Time, fault: Option<Error>)
    | MarkReadRequest(requester: Username, id: int, now: Time, lookupFault: Option<Error>, fault: Option<Error>)

  /** The store after one request. A read leaves it as it was: its handler,
      `ReadMessage`, may modify nothing. */
  function Step(s: Store, r: Request): Store
  {
    match r
    case GetRequest(_, _, _) => s
    case PostRequest(u, p, now, f) => PostStep(s, u, p, now, f).after
    case MarkReadRequest(u, id, now, lf, f) => MarkReadStep(s, u, id, now, lf, f).after
  }

  /** The store after the requests, in order. */
  function Run(s: Store, reqs: seq<Request>): Store
    decreases |reqs|
  {
    if reqs == [] then s else Run(Step(s, reqs[0]), reqs[1..])
  }

  /** `r` is a mark-read of `id` by `user` whose database calls succeeded. */
  predicate MarksReadAs(r: Request, id: int, user: Username)
  {
    r.MarkReadRequest? && r.id == id && r.requester == user && r.lookupFault.None? && r.fault.None?
  }

  /** `r` is a post by `user` that, run against `s`, created the message `id`. */
  predicate CreatesAs(s: Store, r: Request, id: int, user: Username)
  {
    && r.PostRequest? && r.requester == user
    && var o := PostStep(s, r.requester, r.post, r.now, r.fault);
       o.response.Ok? && o.response.value.id == id
  }

  /** Running a prefix one request longer is one more step. */
  lemma RunPrefix(s: Store, reqs: seq<Request>, i: nat)
    requires i < |reqs|
    ensures Run(s, reqs[..i + 1]) == Run(Step(s, reqs[0]), reqs[1..][..i])
  {
    assert reqs[..i + 1][1..] == reqs[1..][..i];
  }

  /** The well-formedness of the store survives every sequence of requests. */
  lemma {:induction false} RunKeepsWellFormed(s: Store, reqs: seq<Request>)
    requires WellFormed(s)
    ensures WellFormed(Run(s, reqs))
    decreases |reqs|
  {
    if reqs != [] {
      RunKeepsWellFormed(Step(s, reqs[0]), reqs[1..]);
    }
  }

  /** A stored message stays stored with the same sender, recipient, body and
      send time, and its `read_at` differs from the start only if some request
      in the sequence was its recipient's mark-read of that id. */
  lemma {:induction false} ReadAtChangesOnlyByRecipient(s: Store, reqs: seq<Request>, id: int)
    requires WellFormed(s) && id in s.messages
    ensures id in Run(s, reqs).messages
    ensures SameExceptReadAt(Run(s, reqs).messages[id], s.messages[id])
    ensures Run(s, reqs).messages[id].readAt != s.messages[id].readAt ==>
      exists i :: 0 <= i < |reqs| && MarksReadAs(reqs[i], id, s.messages[id].toUsername)
    decreases |reqs|
  {
    if reqs != [] {
      var s' := Step(s, reqs[0]);
      assert WellFormed(s') && id in s'.messages;
      assert SameExceptReadAt(s'.messages[id], s.messages[id]);
      assert s'.messages[id].readAt != s.messages[id].readAt ==> MarksReadAs(reqs[0], id, s.messages[id].toUsername);
      ReadAtChangesOnlyByRecipient(s', reqs[1..], id);
      if Run(s, reqs).messages[id].readAt != s'.messages[id].readAt {
        var i :| 0 <= i < |reqs[1..]| && MarksReadAs(reqs[1..][i], id, s'.messages[id].toUsername);
        assert MarksReadAs(reqs[i + 1], id, s.messages[id].toUsername);
      }
    }
  }

  /** Every message the store gains was created by a post whose requester
      its `fromUsername` names, run against the store of its time. */
  lemma {:induction false} NewMessagesSentByRequester(s: Store, reqs: seq<Request>, id: int)
    requires WellFormed(s)
    requires id in Run(s, reqs).messages && id !in s.messages
    ensures exists i :: 0 <= i < |reqs| && CreatesAs(Run(s, reqs[..i]), reqs[i], id, Run(s, reqs).messages[id].fromUsername)
    decreases |reqs|
  {
    var s' := Step(s, reqs[0]);
    assert WellFormed(s');
    if id in s'.messages {
      ReadAtChangesOnlyByRecipient(s', reqs[1..], id);
      assert reqs[..0] == [];
      assert CreatesAs(Run(s, reqs[..0]), reqs[0], id, s'.messages[id].fromUsername);
    } else {
      NewMessagesSentByRequester(s', reqs[1..], id);
      var i :| 0 <= i < |reqs[1..]|
               && CreatesAs(Run(s', reqs[1..][..i]), reqs[1..][i], id, Run(s', reqs[1..]).messages[id].fromUsername);
      RunPrefix(s, reqs, i);
      assert CreatesAs(Run(s, reqs[..i + 1]), reqs[i + 1], id, Run(s, reqs).messages[id].fromUsername);
    }
  }
}
