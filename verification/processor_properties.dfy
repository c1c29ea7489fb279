/**
 * What the delivery handler of `script/activitypub-lmtp.py` guarantees about its
 * stores: one inbox entry per parsed message, one Accept, one message entry and
 * one sender run per Follow, in the order of the payload, and nothing at all for a
 * body that is not JSON.
 */
module ProcessorProperties {
  import opened Wrappers
  import opened Json
  import opened Stores
  import opened Processor
  import OutboxSender

  /** The positions of the Follows in the payload, in order. */
  function FollowIndices(acts: seq<Json>): (idx: seq<nat>)
    ensures forall k :: 0 <= k < |idx| ==> idx[k] < |acts| && IsFollow(acts[idx[k]])
    ensures forall k, j :: 0 <= k < j < |idx| ==> idx[k] < idx[j]
    ensures forall i :: 0 <= i < |acts| && IsFollow(acts[i]) ==> i in idx
    decreases |acts|
  {
    if acts == [] then []
    else
      var n := |acts| - 1;
      assert forall i :: 0 <= i < n ==> acts[..n][i] == acts[i];
      FollowIndices(acts[..n]) + (if IsFollow(acts[n]) then [n] else [])
  }

  /** The Accept, the message entry and the sender run for the Follow at position `i`. */
  function AcceptAt(acts: seq<Json>, clock: nat -> Moment, i: nat): Json
    requires i < |acts| && IsFollow(acts[i])
  {
    AcceptFor(acts[i].members, clock(i))
  }

  function RecordAt(acts: seq<Json>, clock: nat -> Moment, i: nat): Json
    requires i < |acts| && IsFollow(acts[i])
  {
    MessageRecord(acts[i].members, clock(i).saved)
  }

  /** What `f` makes of each Follow of the payload, given its members and its
      position, in the order of the payload. */
  function PerFollow<T>(acts: seq<Json>, f: (seq<(string, Json)>, nat) -> T): seq<T>
    decreases |acts|
  {
    if acts == [] then []
    else
      var n := |acts| - 1;
      PerFollow(acts[..n], f) + (if IsFollow(acts[n]) then [f(acts[n].members, n)] else [])
  }

  /** The `k`-th entry is made from the `k`-th Follow, and there is one entry per
      Follow. */
  lemma {:induction false} PerFollowIndexed<T>(acts: seq<Json>, f: (seq<(string, Json)>, nat) -> T)
    ensures var idx := FollowIndices(acts);
            var xs := PerFollow(acts, f);
            && |xs| == |idx|
            && forall k :: 0 <= k < |idx| ==> xs[k] == f(acts[idx[k]].members, idx[k])
    decreases |acts|
  {
    if acts != [] {
      var n := |acts| - 1;
      PerFollowIndexed(acts[..n], f);
      var pre := FollowIndices(acts[..n]);
      forall k | 0 <= k < |pre|
        ensures acts[..n][pre[k]] == acts[pre[k]]
      {
      }
    }
  }

  /** The Accepts, the message entries and the sender runs of the payload, one per
      Follow, in order. */
  function Accepts(acts: seq<Json>, clock: nat -> Moment): seq<Json>
  {
    PerFollow(acts, (m: seq<(string, Json)>, i: nat) => AcceptFor(m, clock(i)))
  }

  function Records(acts: seq<Json>, clock: nat -> Moment): seq<Json>
  {
    PerFollow(acts, (m: seq<(string, Json)>, i: nat) => MessageRecord(m, clock(i).saved))
  }

  function Requests(acts: seq<Json>, to: string, clock: nat -> Moment): seq<OutboxSender.Args>
  {
    PerFollow(acts, (m: seq<(string, Json)>, i: nat) => DeliveryArgs(to, clock(i).socketUp))
  }

  /** The accept is a dict with the six keys of an ActivityStreams `Accept`, and its
      `type` is `Accept`. */
  lemma AcceptShape(follow: seq<(string, Json)>, at: Moment)
    ensures AcceptFor(follow, at).Obj?
    ensures var m := AcceptFor(follow, at).members;
            && Keys(m) == ["@context", "id", "type", "actor", "object", "timestamp"]
            && Lookup(m, "type") == Some(Str("Accept"))
  {
    var m := AcceptFor(follow, at).members;
    assert |"@context"| == 8 && |"id"| == 2 && |"type"| == 4;
    LookupAt(m, 2, "type");
  }

  /** The accept answers its Follow: its actor is the Follow's object, its object the
      Follow itself, and its id lies under `https://ipcnode.local/activities/`. */
  lemma AcceptAnswers(follow: seq<(string, Json)>, at: Moment)
    ensures var m := AcceptFor(follow, at).members;
            && Get(m, "actor") == Get(follow, "object")
            && Get(m, "object") == Obj(follow)
            && Get(m, "id") == Str(ActivityIds + at.epoch)
  {
    var m := AcceptFor(follow, at).members;
    assert |"@context"| == 8 && |"id"| == 2 && |"type"| == 4 && |"actor"| == 5 && |"object"| == 6;
    LookupAt(m, 1, "id");
    LookupAt(m, 3, "actor");
    LookupAt(m, 4, "object");
  }

  /** Handling the activities never touches the inbox. */
  lemma {:induction false} HandleAllInbox(s: NodeState, acts: seq<Json>, from: Option<string>, clock: nat -> Moment)
    ensures HandleAll(s, acts, from, clock).inbox == s.inbox
    decreases |acts|
  {
    if acts != [] {
      HandleAllInbox(s, acts[..|acts| - 1], from, clock);
    }
  }

  /** The Accepts of a payload are those of all but its last activity, then the
      Accept of the last one when it is a Follow. */
  lemma AcceptsSnoc(acts: seq<Json>, clock: nat -> Moment)
    requires acts != []
    ensures var n := |acts| - 1;
            Accepts(acts, clock) == Accepts(acts[..n], clock)
              + (if IsFollow(acts[n]) then [AcceptFor(acts[n].members, clock(n))] else [])
  {
  }

  /** The outbox after all activities but the last, then the last one handled. */
  lemma HandleAllOutboxSnoc(s: NodeState, acts: seq<Json>, from: Option<string>, clock: nat -> Moment)
    requires acts != []
    ensures var n := |acts| - 1;
            var p := HandleAll(s, acts[..n], from, clock).outbox;
            HandleAll(s, acts, from, clock).outbox
              == if IsFollow(acts[n]) then AppendToOutbox(p, AcceptFor(acts[n].members, clock(n))) else p
  {
  }

  /** One more Accept appended to an outbox that holds the earlier ones. */
  lemma OutboxGrows(f: FileState, g: FileState, before: seq<Json>, a: Json)
    requires g == if before == [] then f else Saved(LoadOutbox(f) + before)
    ensures AppendToOutbox(g, a) == Saved(LoadOutbox(f) + (before + [a]))
  {
    if before == [] {
      assert before + [a] == [a];
    } else {
      OutboxRoundTrip(LoadOutbox(f) + before);
      assert LoadOutbox(f) + before + [a] == LoadOutbox(f) + (before + [a]);
    }
  }

  /** The outbox gains one Accept per Follow, in order, after what it held, and is
      not rewritten when the payload has no Follow. */
  lemma {:induction false} HandleAllOutbox(s: NodeState, acts: seq<Json>, from: Option<string>, clock: nat -> Moment)
    ensures var r := HandleAll(s, acts, from, clock);
            r.outbox == if Accepts(acts, clock) == [] then s.outbox
                        else Saved(LoadOutbox(s.outbox) + Accepts(acts, clock))
    decreases |acts|
  {
    if acts != [] {
      var n := |acts| - 1;
      HandleAllOutbox(s, acts[..n], from, clock);
      HandleAllOutboxSnoc(s, acts, from, clock);
      AcceptsSnoc(acts, clock);
      if IsFollow(acts[n]) {
        OutboxGrows(s.outbox, HandleAll(s, acts[..n], from, clock).outbox, Accepts(acts[..n], clock),
                    AcceptFor(acts[n].members, clock(n)));
      } else {
        assert Accepts(acts[..n], clock) + [] == Accepts(acts[..n], clock);
      }
    }
  }

  /** `messages.json` gains one entry per Follow when it can be extended, and is
      left alone otherwise. */
  lemma {:induction false} HandleAllMessages(s: NodeState, acts: seq<Json>, from: Option<string>, clock: nat -> Moment)
    ensures var r := HandleAll(s, acts, from, clock);
            && (Extensible(s.messages) ==> Extensible(r.messages) && Entries(r.messages) == Entries(s.messages) + Records(acts, clock))
            && (!Extensible(s.messages) ==> r.messages == s.messages)
    decreases |acts|
  {
    if acts != [] {
      var n := |acts| - 1;
      var p := HandleAll(s, acts[..n], from, clock);
      HandleAllMessages(s, acts[..n], from, clock);
      if IsFollow(acts[n]) {
        SavedMessagesSpec(p.messages, MessageRecord(acts[n].members, clock(n).saved));
      }
    }
  }

  /** One sender run is requested per Follow when the message has a `From`
      address, none otherwise. */
  lemma {:induction false} HandleAllRequests(s: NodeState, acts: seq<Json>, from: Option<string>, clock: nat -> Moment)
    ensures HandleAll(s, acts, from, clock).requests
            == s.requests + (if from.Some? then Requests(acts, from.value, clock) else [])
    decreases |acts|
  {
    if acts != [] {
      HandleAllRequests(s, acts[..|acts| - 1], from, clock);
    }
  }

  /** A JSON body stored in a readable inbox is acknowledged, and its activities
      are then handled in order. */
  lemma ReceiveHandles(s: NodeState, msg: Inbound, parse: string -> Option<Json>, now: string, clock: nat -> Moment)
    requires parse(MessageBody(msg)).Some? && !s.inbox.Unreadable?
    ensures var activity := parse(MessageBody(msg)).value;
            var record := InboxRecord(msg, now, activity);
            InboxAppend(s.inbox, record).Success? &&
            Receive(s, msg, parse, now, clock)
            == (true, HandleAll(s.(inbox := InboxAppend(s.inbox, record).value), Activities(activity), msg.from, clock))
  {
  }

  /** A body that is not JSON changes no store, and the message is still acknowledged. */
  lemma NonJsonBodyChangesNothing(s: NodeState, msg: Inbound, parse: string -> Option<Json>, now: string, clock: nat -> Moment)
    requires parse(MessageBody(msg)).None?
    ensures Receive(s, msg, parse, now, clock) == (true, s)
  {
  }

  /** A JSON body is acknowledged unless the inbox cannot be read; the inbox then
      gains exactly the one entry, after everything it held. */
  lemma OneInboxEntry(s: NodeState, msg: Inbound, parse: string -> Option<Json>, now: string, clock: nat -> Moment)
    requires parse(MessageBody(msg)).Some?
    ensures var r := Receive(s, msg, parse, now, clock);
            && (r.0 <==> !s.inbox.Unreadable?)
            && (r.0 ==> LoadOutbox(r.1.inbox)
                        == LoadOutbox(s.inbox) + [InboxRecord(msg, now, parse(MessageBody(msg)).value)])
            && (!r.0 ==> r.1 == s)
  {
    var activity := parse(MessageBody(msg)).value;
    var record := InboxRecord(msg, now, activity);
    InboxAppendSpec(s.inbox, record);
    if !s.inbox.Unreadable? {
      HandleAllInbox(s.(inbox := InboxAppend(s.inbox, record).value), Activities(activity), msg.from, clock);
    }
  }

  /** The last Accept of a payload is a dict whose `type` is `Accept`. */
  lemma LastAccept(acts: seq<Json>, clock: nat -> Moment)
    requires Accepts(acts, clock) != []
    ensures var xs := Accepts(acts, clock);
            var a := xs[|xs| - 1];
            a.Obj? && Lookup(a.members, "type") == Some(Str("Accept"))
  {
    PerFollowIndexed(acts, (m: seq<(string, Json)>, i: nat) => AcceptFor(m, clock(i)));
    var idx := FollowIndices(acts);
    var last := idx[|idx| - 1];
    AcceptShape(acts[last].members, clock(last));
  }

  /** An outbox saved with an Accept last has that Accept sent next. */
  lemma SavedAcceptIsSent(before: seq<Json>, a: Json)
    requires a.Obj? && Lookup(a.members, "type") == Some(Str("Accept"))
    ensures OutboxSender.PlanFor(Saved(before + [a])) == OutboxSender.Send(a, "ActivityPub Accept")
  {
    OutboxSender.SendsLatest(Saved(before + [a]), before, a.members, "Accept");
  }

  /** Once the activities are handled, the sender script picks the last Accept from
      the outbox and sends it under the subject `ActivityPub Accept`. */
  lemma HandledAcceptIsSentNext(s: NodeState, acts: seq<Json>, from: Option<string>, clock: nat -> Moment)
    requires Accepts(acts, clock) != []
    ensures var accepts := Accepts(acts, clock);
            OutboxSender.PlanFor(HandleAll(s, acts, from, clock).outbox)
            == OutboxSender.Send(accepts[|accepts| - 1], "ActivityPub Accept")
  {
    HandleAllOutbox(s, acts, from, clock);
    var accepts := Accepts(acts, clock);
    LastAccept(acts, clock);
    var a := accepts[|accepts| - 1];
    var before := LoadOutbox(s.outbox) + accepts[..|accepts| - 1];
    assert LoadOutbox(s.outbox) + accepts == before + [a];
    SavedAcceptIsSent(before, a);
  }

  /** Once a payload with a Follow is received, the Accept for its last Follow is
      the entry the sender script sends next. */
  lemma AcceptIsSentNext(s: NodeState, msg: Inbound, parse: string -> Option<Json>, now: string, clock: nat -> Moment)
    requires parse(MessageBody(msg)).Some? && !s.inbox.Unreadable?
    requires Accepts(Activities(parse(MessageBody(msg)).value), clock) != []
    ensures var acts := Activities(parse(MessageBody(msg)).value);
            var accepts := Accepts(acts, clock);
            OutboxSender.PlanFor(Receive(s, msg, parse, now, clock).1.outbox)
            == OutboxSender.Send(accepts[|accepts| - 1], "ActivityPub Accept")
  {
    var activity := parse(MessageBody(msg)).value;
    var start := s.(inbox := InboxAppend(s.inbox, InboxRecord(msg, now, activity)).value);
    ReceiveHandles(s, msg, parse, now, clock);
    HandledAcceptIsSentNext(start, Activities(activity), msg.from, clock);
  }
}
