/**
 * `main` of `script/activitypub-lmtp.py`: the LMTP delivery handler. It picks the
 * body of the inbound message, stores it in the inbox when it is JSON, answers
 * every `Follow` with an `Accept` appended to the outbox, and asks the sender script
 * to deliver it.
 */
module Processor {
  import opened Wrappers
  import opened Json
  import opened Stores
  import OutboxSender

  const OutboxFile := "/var/www/activitypub/outbox.json"
  const DovecotSocket := "/var/run/dovecot/lmtp"
  const AcceptSender := "follow@ipcnode.local"
  const ActivityStreams := "https://www.w3.org/ns/activitystreams"
  const ActivityIds := "https://ipcnode.local/activities/"
  const Acknowledgement := "250 OK Message received"

  /** One part of the message, in the order `walk()` visits them. */
  datatype Part = Part(contentType: string, content: string)

  /** The parsed inbound message: its `From`, every `To` and its `Subject` header,
      and either its parts or, when it is not multipart, its content. */
  datatype Inbound = Inbound(
    from: Option<string>, to: seq<string>, subject: Option<string>,
    multipart: bool, parts: seq<Part>, content: string)

  // ---------------------------------------------------------------------------
  // The body

  predicate IsActivityJson(p: Part) {
    p.contentType == "application/activity+json"
  }

  predicate IsFilledText(p: Part) {
    p.contentType == "text/plain" && p.content != ""
  }

  /** The position of the first part from `from` on that `want` accepts. */
  function Find(parts: seq<Part>, want: Part -> bool, from: nat): (r: Option<nat>)
    requires from <= |parts|
    ensures r.Some? ==> from <= r.value < |parts| && want(parts[r.value])
                        && forall j :: from <= j < r.value ==> !want(parts[j])
    ensures r.None? ==> forall j :: from <= j < |parts| ==> !want(parts[j])
    decreases |parts| - from
  {
    if from == |parts| then None
    else if want(parts[from]) then Some(from)
    else Find(parts, want, from + 1)
  }

  /** The first part `want` accepts is the one `Find` returns. */
  lemma FindFirst(parts: seq<Part>, want: Part -> bool, i: nat)
    requires i < |parts| && want(parts[i]) && forall j :: 0 <= j < i ==> !want(parts[j])
    ensures Find(parts, want, 0) == Some(i)
  {
    assert Find(parts, want, 0).Some?;
  }

  /** The body of a multipart message: the first `application/activity+json` part,
      else the first non-empty `text/plain` part, else nothing. */
  function PreferredBody(parts: seq<Part>): string
  {
    match Find(parts, IsActivityJson, 0)
    case Some(i) => parts[i].content
    case None =>
      match Find(parts, IsFilledText, 0)
      case Some(k) => parts[k].content
      case None => ""
  }

  function MessageBody(msg: Inbound): string
  {
    if msg.multipart then PreferredBody(msg.parts) else msg.content
  }

  /** The walk over the parts: an `application/activity+json` part ends it, a
      `text/plain` part fills the body while it is still empty. */
  method SelectBody(msg: Inbound) returns (body: string)
    ensures body == MessageBody(msg)
  {
    if !msg.multipart {
      return msg.content;
    }
    var parts := msg.parts;
    body := "";
    ghost var text: Option<nat> := None;
    var i := 0;
    while i < |parts|
      invariant 0 <= i <= |parts|
      invariant forall j :: 0 <= j < i ==> !IsActivityJson(parts[j])
      invariant text.None? ==> body == "" && forall j :: 0 <= j < i ==> !IsFilledText(parts[j])
      invariant text.Some? ==> && text.value < i && IsFilledText(parts[text.value])
                               && body == parts[text.value].content
                               && forall j :: 0 <= j < text.value ==> !IsFilledText(parts[j])
    {
      var part := parts[i];
      if part.contentType == "application/activity+json" {
        FindFirst(parts, IsActivityJson, i);
        return part.content;
      } else if part.contentType == "text/plain" && body == "" {
        body := part.content;
        if body != "" {
          text := Some(i);
        }
      }
      i := i + 1;
    }
    match text
    case Some(k) => FindFirst(parts, IsFilledText, k);
    case None =>
  }

  // ---------------------------------------------------------------------------
  // The records

  /** What the clock and the file system say while one activity is handled: the
      `utcnow()` readings for the message entry, the Accept id and the Accept
      timestamp, and whether the Dovecot socket exists. */
  datatype Moment = Moment(saved: string, epoch: string, accepted: string, socketUp: bool)

  function OptionalText(s: Option<string>): Json
  {
    if s.Some? then Str(s.value) else Null
  }

  /** The inbox entry for a parsed message. */
  function InboxRecord(msg: Inbound, now: string, activity: Json): Json
  {
    Obj([("timestamp", Str(now)),
         ("from", OptionalText(msg.from)),
         ("to", Arr(Texts(msg.to))),
         ("subject", OptionalText(msg.subject)),
         ("activity", activity)])
  }

  /** The inbox entry keeps the whole payload, the `From` address (`null` without
      one), every `To` address and the time of receipt. */
  lemma InboxRecordShape(msg: Inbound, now: string, activity: Json)
    ensures InboxRecord(msg, now, activity).Obj?
    ensures var m := InboxRecord(msg, now, activity).members;
            && Keys(m) == ["timestamp", "from", "to", "subject", "activity"]
            && Get(m, "activity") == activity
            && Get(m, "from") == OptionalText(msg.from)
            && Get(m, "to") == Arr(Texts(msg.to))
            && Get(m, "timestamp") == Str(now)
  {
    var m := InboxRecord(msg, now, activity).members;
    assert |"timestamp"| == 9 && |"from"| == 4 && |"to"| == 2 && |"subject"| == 7 && |"activity"| == 8;
    LookupAt(m, 1, "from");
    LookupAt(m, 2, "to");
    LookupAt(m, 4, "activity");
  }

  /** The activities of a payload: a list is itself, anything else is one activity. */
  function Activities(activity: Json): seq<Json>
  {
    if activity.Arr? then activity.items else [activity]
  }

  predicate IsFollow(act: Json) {
    act.Obj? && Get(act.members, "type") == Str("Follow")
  }

  /** The `Accept` that answers the Follow `follow`: its actor is the followed
      object and its object the whole Follow. */
  function AcceptFor(follow: seq<(string, Json)>, at: Moment): Json
  {
    Obj([("@context", Str(ActivityStreams)),
         ("id", Str(ActivityIds + at.epoch)),
         ("type", Str("Accept")),
         ("actor", Get(follow, "object")),
         ("object", Obj(follow)),
         ("timestamp", Str(at.accepted))])
  }

  /** The sender's command line for one Accept: from `follow@ipcnode.local` to the
      inbound sender, over the Dovecot socket when it exists, else over TCP to
      127.0.0.1:2626. */
  function DeliveryArgs(to: string, socketUp: bool): OutboxSender.Args
  {
    if socketUp then OutboxSender.Args(OutboxFile, DovecotSocket, None, None, AcceptSender, to)
    else OutboxSender.Args(OutboxFile, OutboxSender.LmtpSocket, Some("127.0.0.1"), Some(2626), AcceptSender, to)
  }

  /** The sender run goes from `follow@ipcnode.local` to the inbound sender with the
      node's outbox, over the Dovecot socket when it exists and over TCP to
      127.0.0.1:2626 otherwise. */
  lemma DeliveryArgsSpec(to: string, socketUp: bool)
    ensures var a := DeliveryArgs(to, socketUp);
            && a.from == AcceptSender && a.to == to && a.outbox == OutboxFile
            && OutboxSender.Endpoint(a.socket, a.host, a.port)
               == if socketUp then OutboxSender.UnixSocket(DovecotSocket) else OutboxSender.Tcp("127.0.0.1", 2626)
  {
  }

  // ---------------------------------------------------------------------------
  // The handler as a function of the stores

  /** The three store files and the sender runs requested so far. */
  datatype NodeState = NodeState(inbox: FileState, outbox: FileState, messages: FileState, requests: seq<OutboxSender.Args>)

  /** One activity of the payload; only a Follow has an effect. */
  function Handle(s: NodeState, act: Json, from: Option<string>, at: Moment): NodeState
  {
    if !IsFollow(act) then s
    else
      NodeState(
        s.inbox,
        AppendToOutbox(s.outbox, AcceptFor(act.members, at)),
        SavedMessages(s.messages, MessageRecord(act.members, at.saved)),
        if from.Some? then s.requests + [DeliveryArgs(from.value, at.socketUp)] else s.requests)
  }

  /** The activities handled in order; the one at position `i` at moment `clock(i)`. */
  function HandleAll(s: NodeState, acts: seq<Json>, from: Option<string>, clock: nat -> Moment): NodeState
    decreases |acts|
  {
    if acts == [] then s
    else
      var n := |acts| - 1;
      Handle(HandleAll(s, acts[..n], from, clock), acts[n], from, clock(n))
  }

  /** The whole handler: whether `250 OK Message received` is printed, and the stores
      afterwards. A body that is not JSON changes nothing; an inbox that cannot be
      read ends the process before anything is written. */
  function Receive(s: NodeState, msg: Inbound, parse: string -> Option<Json>, now: string, clock: nat -> Moment): (bool, NodeState)
  {
    match parse(MessageBody(msg))
    case None => (true, s)
    case Some(activity) =>
      match InboxAppend(s.inbox, InboxRecord(msg, now, activity))
      case Failure(_) => (false, s)
      case Success(inbox) => (true, HandleAll(s.(inbox := inbox), Activities(activity), msg.from, clock))
  }

  /** The handler as the source is written: an inbox file holding a JSON value that is
      not a list makes the append raise, and the process ends unacknowledged. */
  function ReceiveAsWritten(s: NodeState, msg: Inbound, parse: string -> Option<Json>, now: string, clock: nat -> Moment): (bool, NodeState)
  {
    match parse(MessageBody(msg))
    case None => (true, s)
    case Some(activity) =>
      match InboxAppendAsWritten(s.inbox, InboxRecord(msg, now, activity))
      case Failure(_) => (false, s)
      case Success(inbox) => (true, HandleAll(s.(inbox := inbox), Activities(activity), msg.from, clock))
  }

  /** The corrected handler differs from the source only on an inbox holding a value
      that is not a list, where the source stops unacknowledged and without writing,
      and the corrected handler goes on. */
  lemma ReceiveAgrees(s: NodeState, msg: Inbound, parse: string -> Option<Json>, now: string, clock: nat -> Moment)
    ensures !(s.inbox.Holds? && !s.inbox.value.Arr?) ==>
              ReceiveAsWritten(s, msg, parse, now, clock) == Receive(s, msg, parse, now, clock)
    ensures s.inbox.Holds? && !s.inbox.value.Arr? ==>
              && ReceiveAsWritten(s, msg, parse, now, clock).1 == s
              && (ReceiveAsWritten(s, msg, parse, now, clock).0 <==> parse(MessageBody(msg)).None?)
              && Receive(s, msg, parse, now, clock).0
  {
    if parse(MessageBody(msg)).Some? {
      InboxAppendSpec(s.inbox, InboxRecord(msg, now, parse(MessageBody(msg)).value));
    }
  }

  // ---------------------------------------------------------------------------
  // The handler on its files

  class Node {
    var inbox: FileState
    var outbox: FileState
    var messages: FileState
    var requests: seq<OutboxSender.Args>

    function State(): NodeState
      reads this
    {
      NodeState(inbox, outbox, messages, requests)
    }

    constructor (inbox: FileState, outbox: FileState, messages: FileState)
      ensures State() == NodeState(inbox, outbox, messages, [])
    {
      this.inbox, this.outbox, this.messages, requests := inbox, outbox, messages, [];
    }

    /** `save_message(act)` */
    method SaveMessage(act: seq<(string, Json)>, stamp: string)
      modifies this
      ensures State() == old(State()).(messages := SavedMessages(old(messages), MessageRecord(act, stamp)))
    {
      if messages.Missing? {
        messages := Saved([]);
        assert messages.value == Arr([]);
      }
      if messages.Holds? && messages.value.Arr? {
        var entries := messages.value.items;
        entries := entries + [MessageRecord(act, stamp)];
        assert old(messages).Missing? ==> entries == [MessageRecord(act, stamp)];
        messages := Saved(entries);
      }
    }

    /** `outbox = load_outbox(); outbox.append(a); save_outbox(outbox)` */
    method AppendAccept(a: Json)
      modifies this
      ensures State() == old(State()).(outbox := AppendToOutbox(old(outbox), a))
    {
      var entries := LoadOutbox(outbox);
      entries := entries + [a];
      outbox := Saved(entries);
    }

    /** The loop over the activities of the payload. */
    method HandleActivities(acts: seq<Json>, from: Option<string>, clock: nat -> Moment)
      modifies this
      ensures State() == HandleAll(old(State()), acts, from, clock)
    {
      ghost var start := State();
      var i := 0;
      while i < |acts|
        invariant 0 <= i <= |acts|
        invariant State() == HandleAll(start, acts[..i], from, clock)
      {
        var act := acts[i];
        assert acts[..i + 1][..i] == acts[..i];
        if act.Obj? && Get(act.members, "type") == Str("Follow") {
          SaveMessage(act.members, clock(i).saved);
          AppendAccept(AcceptFor(act.members, clock(i)));
          if from.Some? {
            requests := requests + [DeliveryArgs(from.value, clock(i).socketUp)];
          }
        }
        i := i + 1;
      }
      assert acts[..|acts|] == acts;
    }

    /** The delivery handler. Returns whether `250 OK Message received` is printed. */
    method Process(msg: Inbound, parse: string -> Option<Json>, now: string, clock: nat -> Moment)
      returns (acknowledged: bool)
      modifies this
      ensures (acknowledged, State()) == Receive(old(State()), msg, parse, now, clock)
      ensures !(old(inbox).Holds? && !old(inbox).value.Arr?) ==>
                (acknowledged, State()) == ReceiveAsWritten(old(State()), msg, parse, now, clock)
    {
      ReceiveAgrees(State(), msg, parse, now, clock);
      var body := SelectBody(msg);
      var parsed := parse(body);
      if parsed.None? {
        return true;
      }
      var activity := parsed.value;
      var loaded := LoadJson(inbox);
      if loaded.Failure? {
        return false;
      }
      var entries := AsList(loaded.value);
      entries := entries + [InboxRecord(msg, now, activity)];
      inbox := Saved(entries);

      HandleActivities(Activities(activity), msg.from, clock);
      acknowledged := true;
    }
  }
}
