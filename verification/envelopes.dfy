/**
 * The AI Message Envelope v0.1 of `script/ai_message_envelope.py`: sender and
 * recipient validation, recipient de-duplication, the payload type check, the
 * best-effort JSON coercion of string payloads, and the dict form of the thread
 * metadata and of the envelope with its round trip.
 *
 * The dataclass attributes hold whatever the caller passed, so they are JSON values
 * here; `__post_init__` is what turns them into a checked envelope.
 */
module Envelopes {
  import opened Wrappers
  import opened Json
  import opened AgentIds

  /** The exceptions the envelope code raises. */
  datatype Fault =
    | MissingKey(key: string)          // `KeyError`
    | TypeMismatch(value: Json)        // `TypeError` or `AttributeError` on a value of the wrong type
    | InvalidAgentId(id: string)       // `ValueError` from `_validate_agent_id`
    | InvalidPayloadType(value: Json)  // `ValueError` from `__post_init__`

  // ---------------------------------------------------------------------------
  // Agent IDs and recipients

  /** `_validate_agent_id(v)`: the ID itself when it is a string of the pattern;
      a string outside it is a `ValueError`, anything else a `TypeError` from the
      regex match. The pattern is matched against the whole string. */
  function ValidateAgentId(v: Json): Result<string, Fault>
  {
    match v
    case Str(s) => if ValidAgentId(s) then Success(s) else Failure(InvalidAgentId(s))
    case _ => Failure(TypeMismatch(v))
  }

  /** An ID is accepted exactly when it is a string of the pattern, and it is then
      returned unchanged; a string outside the pattern is reported as such. On a
      string that does not end in a newline the source's check gives the same answer. */
  lemma ValidateAgentIdSpec(v: Json)
    ensures ValidateAgentId(v).Success? <==> v.Str? && InPattern(v.s)
    ensures ValidateAgentId(v).Success? ==> ValidateAgentId(v).value == v.s
    ensures v.Str? && ValidateAgentId(v).Failure? ==> ValidateAgentId(v).error == InvalidAgentId(v.s)
    ensures v.Str? && (v.s == [] || v.s[|v.s| - 1] != '\n') ==>
              (ValidateAgentId(v).Success? <==> MatchesAgentPatternAsWritten(v.s))
  {
    if v.Str? {
      ValidAgentIdIff(v.s);
    }
  }

  /** The elements `for x in v` visits: a list gives its items, a string its
      characters, a dict its keys; any other value is not iterable. */
  function Iterate(v: Json): (r: Option<seq<Json>>)
    ensures r.None? <==> v.Null? || v.Bool? || v.Num?
  {
    match v
    case Arr(items) => Some(items)
    case Str(s) => Some(seq(|s|, i requires 0 <= i < |s| => Str([s[i]])))
    case Obj(m) => Some(Texts(Keys(m)))
    case _ => None
  }

  /** The fault of the first recipient that fails validation, if any. */
  function FirstFault(items: seq<Json>): Option<Fault>
    decreases |items|
  {
    if items == [] then None
    else
      var n := |items| - 1;
      match FirstFault(items[..n])
      case Some(f) => Some(f)
      case None =>
        match ValidateAgentId(items[n])
        case Failure(f) => Some(f)
        case Success(_) => None
  }

  /** There is a fault exactly when some recipient fails validation. */
  lemma {:induction false} FirstFaultNone(items: seq<Json>)
    ensures FirstFault(items).None? <==> forall i :: 0 <= i < |items| ==> ValidateAgentId(items[i]).Success?
    decreases |items|
  {
    if items != [] {
      var n := |items| - 1;
      FirstFaultNone(items[..n]);
      assert forall i :: 0 <= i < n ==> items[..n][i] == items[i];
    }
  }

  /** The fault reported is that of the first recipient that fails validation,
      duplicates included. */
  lemma {:induction false} FirstFaultWitness(items: seq<Json>)
    requires FirstFault(items).Some?
    ensures exists i :: 0 <= i < |items| && ValidateAgentId(items[i]) == Failure(FirstFault(items).value)
                        && forall j :: 0 <= j < i ==> ValidateAgentId(items[j]).Success?
    decreases |items|
  {
    var n := |items| - 1;
    var p := items[..n];
    assert forall i :: 0 <= i < n ==> p[i] == items[i];
    if FirstFault(p).Some? {
      FirstFaultWitness(p);
    } else {
      FirstFaultNone(p);
      assert ValidateAgentId(items[n]) == Failure(FirstFault(items).value);
    }
  }

  /** Once a prefix holds a fault, the whole list reports that fault. */
  lemma {:induction false} FaultPersists(items: seq<Json>, i: nat)
    requires i <= |items| && FirstFault(items[..i]).Some?
    ensures FirstFault(items) == FirstFault(items[..i])
    decreases |items|
  {
    if i < |items| {
      var n := |items| - 1;
      assert items[..n][..i] == items[..i];
      FaultPersists(items[..n], i);
    } else {
      assert items[..i] == items;
    }
  }

  /** The text of each recipient. */
  function Names(items: seq<Json>): (ns: seq<string>)
    ensures |ns| == |items|
  {
    seq(|items|, i requires 0 <= i < |items| => if items[i].Str? then items[i].s else "")
  }

  /** Each string the first time it occurs, in the order of the first occurrences. */
  function Dedup(xs: seq<string>): seq<string>
    decreases |xs|
  {
    if xs == [] then []
    else
      var n := |xs| - 1;
      Dedup(xs[..n]) + (if xs[n] in xs[..n] then [] else [xs[n]])
  }

  lemma DedupSnoc(xs: seq<string>, x: string)
    ensures Dedup(xs + [x]) == Dedup(xs) + (if x in xs then [] else [x])
  {
    assert (xs + [x])[..|xs|] == xs;
  }

  predicate Distinct(xs: seq<string>) {
    forall i, j :: 0 <= i < j < |xs| ==> xs[i] != xs[j]
  }

  /** The position of the first occurrence of `x`. */
  function FirstIndex(xs: seq<string>, x: string): (k: nat)
    requires x in xs
    ensures k < |xs| && xs[k] == x && forall j :: 0 <= j < k ==> xs[j] != x
  {
    if xs[0] == x then 0 else 1 + FirstIndex(xs[1..], x)
  }

  /** A first occurrence in a prefix is the first occurrence in the whole. */
  lemma FirstIndexPrefix(xs: seq<string>, n: nat, x: string)
    requires n <= |xs| && x in xs[..n]
    ensures x in xs && FirstIndex(xs, x) == FirstIndex(xs[..n], x)
  {
    var k := FirstIndex(xs[..n], x);
    assert xs[k] == x;
    assert forall j :: 0 <= j < n ==> xs[..n][j] == xs[j];
  }

  /** De-duplication keeps exactly the strings of the input, each once, in the
      order of their first occurrences. */
  lemma {:induction false} DedupSpec(xs: seq<string>)
    ensures var d := Dedup(xs);
            && (forall x :: x in d <==> x in xs)
            && Distinct(d)
            && forall i, j :: 0 <= i < j < |d| ==> d[i] in xs && d[j] in xs && FirstIndex(xs, d[i]) < FirstIndex(xs, d[j])
    decreases |xs|
  {
    if xs != [] {
      var n := |xs| - 1;
      var p := xs[..n];
      DedupSpec(p);
      assert xs == p + [xs[n]];
      var d := Dedup(xs);
      var e := Dedup(p);
      forall y | y in e
        ensures y in xs && FirstIndex(xs, y) == FirstIndex(p, y) && FirstIndex(xs, y) < n
      {
        FirstIndexPrefix(xs, n, y);
      }
      if xs[n] !in p {
        assert d == e + [xs[n]];
        assert FirstIndex(xs, xs[n]) == n;
        forall i, j | 0 <= i < j < |d|
          ensures d[i] in xs && d[j] in xs && FirstIndex(xs, d[i]) < FirstIndex(xs, d[j])
        {
          assert d[i] == e[i];
          if j < |e| {
            assert d[j] == e[j];
          }
        }
      }
    }
  }

  /** A list without duplicates is its own de-duplication. */
  lemma {:induction false} DedupDistinct(xs: seq<string>)
    requires Distinct(xs)
    ensures Dedup(xs) == xs
    decreases |xs|
  {
    if xs != [] {
      var n := |xs| - 1;
      DedupDistinct(xs[..n]);
      assert xs[..n] + [xs[n]] == xs;
    }
  }

  /** De-duplicating twice is de-duplicating once. */
  lemma DedupIdempotent(xs: seq<string>)
    ensures Dedup(Dedup(xs)) == Dedup(xs)
  {
    DedupSpec(xs);
    DedupDistinct(Dedup(xs));
  }

  /** `_normalise_recipients` on the elements `items`: the fault of the first
      invalid one, else the valid IDs without repeats. */
  function Normalised(items: seq<Json>): Result<seq<string>, Fault>
  {
    match FirstFault(items)
    case Some(f) => Failure(f)
    case None => Success(Dedup(Names(items)))
  }

  /** Normalising succeeds exactly when every recipient is a valid ID. */
  lemma NormalisedSucceeds(items: seq<Json>)
    ensures Normalised(items).Success? <==> forall i :: 0 <= i < |items| ==> items[i].Str? && InPattern(items[i].s)
  {
    FirstFaultNone(items);
    forall i | 0 <= i < |items|
      ensures ValidateAgentId(items[i]).Success? <==> items[i].Str? && InPattern(items[i].s)
    {
      ValidateAgentIdSpec(items[i]);
    }
  }

  /** A successful normalisation keeps each ID once, loses none and adds none. */
  lemma NormalisedContents(items: seq<Json>)
    requires Normalised(items).Success?
    ensures var u := Normalised(items).value;
            && Distinct(u)
            && (forall i :: 0 <= i < |items| ==> items[i].Str? && items[i].s in u)
            && (forall x :: x in u ==> Str(x) in items)
  {
    FirstFaultNone(items);
    var ns := Names(items);
    var u := Dedup(ns);
    DedupSpec(ns);
    forall x | x in u
      ensures Str(x) in items
    {
      var i :| 0 <= i < |ns| && ns[i] == x;
      assert ValidateAgentId(items[i]).Success?;
      assert items[i] == Str(x);
    }
    forall i | 0 <= i < |items|
      ensures items[i].Str? && items[i].s in u
    {
      assert ValidateAgentId(items[i]).Success?;
      assert ns[i] == items[i].s;
    }
  }

  /** A successful normalisation lists the IDs in the order of their first
      occurrences. */
  lemma NormalisedOrder(items: seq<Json>)
    requires Normalised(items).Success?
    ensures var u := Normalised(items).value;
            forall i, j :: 0 <= i < j < |u| ==>
              u[i] in Names(items) && u[j] in Names(items)
              && FirstIndex(Names(items), u[i]) < FirstIndex(Names(items), u[j])
  {
    DedupSpec(Names(items));
  }

  /** What a successful normalisation gives is a list of distinct valid IDs. */
  lemma NormalisedIds(items: seq<Json>)
    requires Normalised(items).Success?
    ensures var u := Normalised(items).value;
            Distinct(u) && forall i :: 0 <= i < |u| ==> InPattern(u[i])
  {
    var u := Normalised(items).value;
    NormalisedSucceeds(items);
    NormalisedContents(items);
    forall i | 0 <= i < |u|
      ensures InPattern(u[i])
    {
      assert Str(u[i]) in items;
      var k :| 0 <= k < |items| && items[k] == Str(u[i]);
    }
  }

  /** Normalising a normalised list gives it back. */
  lemma NormaliseTwice(items: seq<Json>)
    requires Normalised(items).Success?
    ensures Normalised(Texts(Normalised(items).value)) == Normalised(items)
  {
    NormalisedIds(items);
    NormaliseValid(Normalised(items).value);
  }

  /** A list of distinct valid IDs normalises to itself. */
  lemma NormaliseValid(u: seq<string>)
    requires Distinct(u) && forall i :: 0 <= i < |u| ==> InPattern(u[i])
    ensures Normalised(Texts(u)) == Success(u)
  {
    var items := Texts(u);
    forall i | 0 <= i < |items|
      ensures ValidateAgentId(items[i]).Success?
    {
      ValidateAgentIdSpec(items[i]);
    }
    FirstFaultNone(items);
    assert Names(items) == u;
    DedupDistinct(u);
  }

  /** One more recipient looked at: its validation decides the prefix's fault. */
  lemma NormaliseStep(items: seq<Json>, i: nat)
    requires i < |items| && FirstFault(items[..i]).None?
    ensures FirstFault(items[..i + 1]) == if ValidateAgentId(items[i]).Failure? then Some(ValidateAgentId(items[i]).error) else None
  {
    assert items[..i + 1][..i] == items[..i];
    assert items[..i + 1][i] == items[i];
  }

  /** The texts of a longer prefix. */
  lemma NamesPrefix(items: seq<Json>, i: nat)
    requires i < |items|
    ensures Names(items)[..i + 1] == Names(items)[..i] + [if items[i].Str? then items[i].s else ""]
  {
  }

  /** The loop of `_normalise_recipients`, with its `seen` set and `unique` list. */
  method NormaliseRecipients(recipients: seq<Json>) returns (r: Result<seq<string>, Fault>)
    ensures r == Normalised(recipients)
  {
    var unique: seq<string> := [];
    var seen: set<string> := {};
    ghost var ns := Names(recipients);
    var i := 0;
    while i < |recipients|
      invariant 0 <= i <= |recipients|
      invariant FirstFault(recipients[..i]).None?
      invariant unique == Dedup(ns[..i])
      invariant forall x :: x in seen <==> x in ns[..i]
    {
      var validated := ValidateAgentId(recipients[i]);
      NormaliseStep(recipients, i);
      if validated.Failure? {
        FaultPersists(recipients, i + 1);
        return Failure(validated.error);
      }
      var v := validated.value;
      NamesPrefix(recipients, i);
      DedupSnoc(ns[..i], v);
      if v !in seen {
        seen := seen + {v};
        unique := unique + [v];
      }
      i := i + 1;
    }
    assert recipients[..i] == recipients;
    assert ns[..i] == ns;
    r := Success(unique);
  }

  // ---------------------------------------------------------------------------
  // Thread metadata

  /** `ThreadContext`: `context` and `in_reply_to`, `None` when absent. */
  datatype Thread = Thread(context: Json, inReplyTo: Json)

  const NoThread := Thread(Null, Null)

  /** `ThreadContext.to_dict()`: only the truthy fields are written. */
  function ThreadToDict(t: Thread): (d: Json)
    ensures d.Obj?
  {
    Obj((if Truthy(t.context) then [("context", t.context)] else [])
        + (if Truthy(t.inReplyTo) then [("inReplyTo", t.inReplyTo)] else []))
  }

  /** `ThreadContext.from_dict(d)`: a falsy value reads as `{}`; a dict gives its
      `context` and its `inReplyTo`, falling back to `in_reply_to` when that is
      falsy; any other value has no `get`. */
  function ThreadFromDict(d: Json): Result<Thread, Fault>
  {
    if !Truthy(d) then Success(NoThread)
    else if d.Obj? then Success(Thread(Get(d.members, "context"), Or(Get(d.members, "inReplyTo"), Get(d.members, "in_reply_to"))))
    else Failure(TypeMismatch(d))
  }

  /** A field survives the dict form when it is `None` or truthy. */
  predicate Kept(j: Json) {
    j.Null? || Truthy(j)
  }

  /** `to_dict` writes a field exactly when it is truthy, under its camel-case key. */
  lemma ThreadToDictSpec(t: Thread)
    ensures var m := ThreadToDict(t).members;
            && (Lookup(m, "context").Some? <==> Truthy(t.context))
            && (Lookup(m, "inReplyTo").Some? <==> Truthy(t.inReplyTo))
            && Lookup(m, "in_reply_to").None?
            && (Truthy(t.context) ==> Lookup(m, "context") == Some(t.context))
            && (Truthy(t.inReplyTo) ==> Lookup(m, "inReplyTo") == Some(t.inReplyTo))
  {
    var m := ThreadToDict(t).members;
    assert |"context"| == 7 && |"inReplyTo"| == 9 && |"in_reply_to"| == 11;
    LookupSpec(m, "context");
    LookupSpec(m, "inReplyTo");
    LookupSpec(m, "in_reply_to");
  }

  /** The thread comes back from its dict form exactly when both fields are `None`
      or truthy; an empty string, for one, comes back as `None`. */
  lemma ThreadRoundTrip(t: Thread)
    ensures ThreadFromDict(ThreadToDict(t)) == Success(t) <==> Kept(t.context) && Kept(t.inReplyTo)
  {
    ThreadToDictSpec(t);
  }

  /** `from_dict(None)` is the empty thread. */
  lemma ThreadFromNone()
    ensures ThreadFromDict(Null) == Success(NoThread)
    ensures ThreadToDict(NoThread) == Obj([])
  {
  }

  // ---------------------------------------------------------------------------
  // The envelope

  /** The attributes of an `Envelope`, as the dataclass holds them. */
  datatype Fields = Fields(
    sender: Json, recipients: Json, payload: Json, payloadType: Json,
    thread: Thread, version: Json, id: Json, createdAt: Json)

  /** The payload after the best-effort coercion: a string under the `json` payload
      type is replaced by its parse when it parses, and kept as it is otherwise. */
  function Coerced(payload: Json, payloadType: Json, parse: string -> Option<Json>): Json
  {
    if payloadType == Str("json") && payload.Str? && parse(payload.s).Some? then parse(payload.s).value
    else payload
  }

  /** What `__post_init__` makes of the attributes: the sender is validated, then
      the recipients normalised, then the payload type checked (a list or a dict
      cannot be looked up in a set), and last the payload coerced. */
  function Checked(f: Fields, parse: string -> Option<Json>): Result<Fields, Fault>
  {
    match ValidateAgentId(f.sender)
    case Failure(e) => Failure(e)
    case Success(_) =>
      match Iterate(f.recipients)
      case None => Failure(TypeMismatch(f.recipients))
      case Some(items) =>
        match Normalised(items)
        case Failure(e) => Failure(e)
        case Success(recipients) =>
          if f.payloadType.Arr? || f.payloadType.Obj? then Failure(TypeMismatch(f.payloadType))
          else if f.payloadType != Str("json") && f.payloadType != Str("text") then Failure(InvalidPayloadType(f.payloadType))
          else Success(f.(recipients := Arr(Texts(recipients)), payload := Coerced(f.payload, f.payloadType, parse)))
  }

  /** The checks run in order: a bad sender is reported whatever else is wrong, bad
      recipients whatever the payload type, and the payload type last. */
  lemma CheckOrder(f: Fields, parse: string -> Option<Json>)
    ensures ValidateAgentId(f.sender).Failure? ==> Checked(f, parse) == Failure(ValidateAgentId(f.sender).error)
    ensures ValidateAgentId(f.sender).Success? && Iterate(f.recipients).Some? && Normalised(Iterate(f.recipients).value).Failure?
            ==> Checked(f, parse) == Failure(Normalised(Iterate(f.recipients).value).error)
    ensures Checked(f, parse).Failure? <==>
              || ValidateAgentId(f.sender).Failure?
              || Iterate(f.recipients).None?
              || Normalised(Iterate(f.recipients).value).Failure?
              || (f.payloadType != Str("json") && f.payloadType != Str("text"))
  {
  }

  /** A checked envelope has a valid sender, distinct valid recipients and the
      payload type `json` or `text`. */
  lemma CheckedValid(f: Fields, parse: string -> Option<Json>)
    requires Checked(f, parse).Success?
    ensures var g := Checked(f, parse).value;
            && f.sender.Str? && InPattern(f.sender.s)
            && g.recipients.Arr? && Distinct(Names(g.recipients.items))
            && (forall i :: 0 <= i < |g.recipients.items| ==> g.recipients.items[i].Str? && InPattern(g.recipients.items[i].s))
            && (f.payloadType == Str("json") || f.payloadType == Str("text"))
  {
    ValidateAgentIdSpec(f.sender);
    var items := Iterate(f.recipients).value;
    var u := Normalised(items).value;
    assert Checked(f, parse).value.recipients == Arr(Texts(u));
    NormalisedIds(items);
    assert Names(Texts(u)) == u;
  }

  /** Checking keeps the sender, the payload type, the thread, the version, the id
      and the creation time; it changes a payload only by parsing a `json` string,
      and never touches a `text` payload. */
  lemma CheckedKeeps(f: Fields, parse: string -> Option<Json>)
    requires Checked(f, parse).Success?
    ensures var g := Checked(f, parse).value;
            && g == f.(recipients := g.recipients, payload := g.payload)
            && (f.payloadType == Str("text") ==> g.payload == f.payload)
            && (g.payload != f.payload ==> f.payloadType == Str("json") && f.payload.Str? && parse(f.payload.s) == Some(g.payload))
  {
  }

  /** The attributes `__post_init__` leaves unchanged: a valid sender, distinct
      valid recipients, a known payload type and a payload that coercion keeps. */
  predicate Settled(f: Fields, parse: string -> Option<Json>) {
    && ValidateAgentId(f.sender).Success?
    && f.recipients.Arr?
    && Distinct(Names(f.recipients.items))
    && (forall i :: 0 <= i < |f.recipients.items| ==> ValidateAgentId(f.recipients.items[i]).Success?)
    && (f.payloadType == Str("json") || f.payloadType == Str("text"))
    && Coerced(f.payload, f.payloadType, parse) == f.payload
  }

  /** Checking settled attributes changes nothing. */
  lemma CheckSettled(f: Fields, parse: string -> Option<Json>)
    requires Settled(f, parse)
    ensures Checked(f, parse) == Success(f)
  {
    var items := f.recipients.items;
    FirstFaultNone(items);
    var u := Names(items);
    DedupDistinct(u);
    assert Texts(u) == items;
  }

  /** The dataclass with its attributes; `__post_init__` reassigns them. */
  class Envelope {
    var sender: Json
    var recipients: Json
    var payload: Json
    var payloadType: Json
    var thread: Thread
    var version: Json
    var id: Json
    var createdAt: Json

    function Attributes(): Fields
      reads this
    {
      Fields(sender, recipients, payload, payloadType, thread, version, id, createdAt)
    }

    /** The generated `__init__`, before `__post_init__` runs. */
    constructor (f: Fields)
      ensures Attributes() == f
    {
      sender, recipients, payload, payloadType := f.sender, f.recipients, f.payload, f.payloadType;
      thread, version, id, createdAt := f.thread, f.version, f.id, f.createdAt;
    }

    /** `__post_init__`: on success the attributes are the checked ones; a failure is
        the exception that escapes, and the object is then never handed out. */
    method PostInit(parse: string -> Option<Json>) returns (r: Result<(), Fault>)
      modifies this
      ensures Checked(old(Attributes()), parse).Failure? ==> r == Failure(Checked(old(Attributes()), parse).error)
      ensures Checked(old(Attributes()), parse).Success? ==> r == Success(()) && Attributes() == Checked(old(Attributes()), parse).value
    {
      var validated := ValidateAgentId(sender);
      if validated.Failure? {
        return Failure(validated.error);
      }
      sender := Str(validated.value);
      var items := Iterate(recipients);
      if items.None? {
        return Failure(TypeMismatch(recipients));
      }
      var unique := NormaliseRecipients(items.value);
      if unique.Failure? {
        return Failure(unique.error);
      }
      recipients := Arr(Texts(unique.value));
      if payloadType.Arr? || payloadType.Obj? {
        return Failure(TypeMismatch(payloadType));
      }
      if payloadType != Str("json") && payloadType != Str("text") {
        return Failure(InvalidPayloadType(payloadType));
      }
      if payloadType == Str("json") && payload.Str? {
        var parsed := parse(payload.s);
        if parsed.Some? {
          payload := parsed.value;
        }
      }
      r := Success(());
    }
  }

  /** `Envelope.to_dict()` */
  function ToDict(f: Fields): (d: Json)
    ensures d.Obj? && Keys(d.members) == ["version", "id", "createdAt", "sender", "recipients", "payload", "payloadType", "thread"]
  {
    Obj([("version", f.version),
         ("id", f.id),
         ("createdAt", f.createdAt),
         ("sender", f.sender),
         ("recipients", f.recipients),
         ("payload", f.payload),
         ("payloadType", f.payloadType),
         ("thread", ThreadToDict(f.thread))])
  }

  /** `Envelope.from_dict(data)`: `sender` is required; the other keys default to
      `[]`, `None`, `"json"`, the empty thread, `"v0.1"`, a fresh `urn:uuid:` id and
      the current time (`freshId` and `now` stand for `uuid4()` and the clock). The
      thread is read before the dataclass is built, so its error comes before
      those of `__post_init__`. */
  function FromDict(data: seq<(string, Json)>, parse: string -> Option<Json>, freshId: string, now: string): Result<Fields, Fault>
  {
    match Lookup(data, "sender")
    case None => Failure(MissingKey("sender"))
    case Some(sender) =>
      match ThreadFromDict(Get(data, "thread"))
      case Failure(e) => Failure(e)
      case Success(thread) =>
        Checked(Fields(sender,
                       GetOr(data, "recipients", Arr([])),
                       Get(data, "payload"),
                       GetOr(data, "payloadType", Str("json")),
                       thread,
                       GetOr(data, "version", Str("v0.1")),
                       GetOr(data, "id", Str("urn:uuid:" + freshId)),
                       GetOr(data, "createdAt", Str(now))), parse)
  }

  /** The value of each key of the dict form. */
  lemma ToDictHead(f: Fields)
    ensures var m := ToDict(f).members;
            && Lookup(m, "version") == Some(f.version)
            && Lookup(m, "id") == Some(f.id)
            && Lookup(m, "createdAt") == Some(f.createdAt)
            && Lookup(m, "sender") == Some(f.sender)
  {
    var m := ToDict(f).members;
    assert m[0].0 == "version" && m[1].0 == "id" && m[2].0 == "createdAt" && m[3].0 == "sender";
    assert "version"[0] == 'v' && "id"[0] == 'i' && "createdAt"[0] == 'c' && "sender"[0] == 's';
    LookupAt(m, 0, "version");
    LookupAt(m, 1, "id");
    LookupAt(m, 2, "createdAt");
    LookupAt(m, 3, "sender");
  }

  lemma ToDictPayload(f: Fields)
    ensures var m := ToDict(f).members;
            && Lookup(m, "recipients") == Some(f.recipients)
            && Lookup(m, "payload") == Some(f.payload)
  {
    var m := ToDict(f).members;
    assert m[0].0 == "version" && m[1].0 == "id" && m[2].0 == "createdAt" && m[3].0 == "sender";
    assert m[4].0 == "recipients" && m[5].0 == "payload";
    assert "version"[0] == 'v' && "id"[0] == 'i' && "createdAt"[0] == 'c' && "sender"[0] == 's';
    assert "recipients"[0] == 'r' && "payload"[0] == 'p';
    LookupAt(m, 4, "recipients");
    LookupAt(m, 5, "payload");
  }

  lemma ToDictTail(f: Fields)
    ensures var m := ToDict(f).members;
            && Lookup(m, "payloadType") == Some(f.payloadType)
            && Lookup(m, "thread") == Some(ThreadToDict(f.thread))
  {
    var m := ToDict(f).members;
    assert m[0].0 == "version" && m[1].0 == "id" && m[2].0 == "createdAt" && m[3].0 == "sender";
    assert m[4].0 == "recipients" && m[5].0 == "payload" && m[6].0 == "payloadType" && m[7].0 == "thread";
    assert "version"[0] == 'v' && "id"[0] == 'i' && "createdAt"[0] == 'c' && "sender"[0] == 's';
    assert "recipients"[0] == 'r' && "payload"[0] == 'p' && "payloadType"[0] == 'p' && "thread"[0] == 't';
    assert |"payload"| == 7 && |"payloadType"| == 11;
    LookupAt(m, 6, "payloadType");
    LookupAt(m, 7, "thread");
  }

  /** The envelope comes back from its dict form when `__post_init__` would leave it
      as it is and its thread fields are `None` or truthy. */
  lemma RoundTrip(f: Fields, parse: string -> Option<Json>, freshId: string, now: string)
    requires Settled(f, parse) && Kept(f.thread.context) && Kept(f.thread.inReplyTo)
    ensures FromDict(ToDict(f).members, parse, freshId, now) == Success(f)
  {
    ToDictHead(f);
    ToDictPayload(f);
    ToDictTail(f);
    ThreadRoundTrip(f.thread);
    CheckSettled(f, parse);
  }

  /** A `json` string payload that parses comes back as its parse, not as the
      string: the round trip holds only for payloads that coercion keeps. */
  lemma RoundTripCoerces(f: Fields, parse: string -> Option<Json>, freshId: string, now: string)
    requires Settled(f.(payload := Null), parse) && Kept(f.thread.context) && Kept(f.thread.inReplyTo)
    requires f.payloadType == Str("json") && f.payload.Str? && parse(f.payload.s).Some?
    ensures FromDict(ToDict(f).members, parse, freshId, now) == Success(f.(payload := parse(f.payload.s).value))
  {
    ToDictHead(f);
    ToDictPayload(f);
    ToDictTail(f);
    ThreadRoundTrip(f.thread);
    CheckSettled(f.(payload := Null), parse);
  }

  /** The attributes a dict with only a sender gives. */
  function Defaults(sender: string, freshId: string, now: string): Fields {
    Fields(Str(sender), Arr([]), Null, Str("json"), NoThread, Str("v0.1"), Str("urn:uuid:" + freshId), Str(now))
  }

  /** Every key but `sender` is absent, so every attribute takes its default. */
  lemma OnlySenderGivesDefaults(sender: string, parse: string -> Option<Json>, freshId: string, now: string)
    ensures FromDict([("sender", Str(sender))], parse, freshId, now) == Checked(Defaults(sender, freshId, now), parse)
  {
    var m := [("sender", Str(sender))];
    assert "sender"[0] == 's';
    assert "recipients"[0] == 'r' && "payload"[0] == 'p' && "payloadType"[0] == 'p' && "thread"[0] == 't';
    assert "version"[0] == 'v' && "id"[0] == 'i' && "createdAt"[0] == 'c';
    assert Lookup(m, "thread") == None && Lookup(m, "recipients") == None && Lookup(m, "payload") == None;
    assert Lookup(m, "payloadType") == None && Lookup(m, "version") == None;
    assert Lookup(m, "id") == None && Lookup(m, "createdAt") == None;
  }

  /** A dict with only a valid sender takes every default. */
  lemma FromDictDefaults(sender: string, parse: string -> Option<Json>, freshId: string, now: string)
    requires InPattern(sender)
    ensures FromDict([("sender", Str(sender))], parse, freshId, now)
            == Success(Fields(Str(sender), Arr([]), Null, Str("json"), NoThread, Str("v0.1"), Str("urn:uuid:" + freshId), Str(now)))
  {
    OnlySenderGivesDefaults(sender, parse, freshId, now);
    ValidateAgentIdSpec(Str(sender));
    assert Names([]) == [] && Texts([]) == [];
    CheckSettled(Defaults(sender, freshId, now), parse);
  }

  /** A dict without `sender` fails on that key, before anything else is looked at. */
  lemma FromDictNeedsSender(data: seq<(string, Json)>, parse: string -> Option<Json>, freshId: string, now: string)
    requires "sender" !in Keys(data)
    ensures FromDict(data, parse, freshId, now) == Failure(MissingKey("sender"))
  {
    LookupSpec(data, "sender");
  }
}
