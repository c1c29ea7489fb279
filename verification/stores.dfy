/**
 * The JSON files of `script/activitypub-lmtp.py` (`inbox.json`, `outbox.json`,
 * `messages.json`) and the helpers that load and extend them. A file is seen
 * through what `json.load` makes of it.
 */
module Stores {
  import opened Wrappers
  import opened Json

  /** What opening and decoding a store file gives. `Unreadable` stands for every
      failure other than a JSON decode error (permissions, a bad encoding, ...). */
  datatype FileState =
    | Missing
    | Unreadable
    | Malformed
    | Holds(value: Json)

  /** An exception that escapes a store helper and ends the process. */
  datatype Crash =
    | ReadFailed            // opening or decoding raised something else than a decode error
    | NoAppend(value: Json) // the loaded value has no `append` method

  /** `json.dump(value, f)`: what the file holds afterwards. */
  function Saved(value: seq<Json>): FileState
  {
    Holds(Arr(value))
  }

  /** `load_json(path)`: a missing file or a decode error reads as `[]`; any other
      value is returned as it is. */
  function LoadJson(f: FileState): Result<Json, Crash>
  {
    match f
    case Missing => Success(Arr([]))
    case Malformed => Success(Arr([]))
    case Unreadable => Failure(ReadFailed)
    case Holds(v) => Success(v)
  }

  /** The list a loaded outbox value stands for: a list is itself, a dict is a list
      of one, anything else is empty. */
  function AsList(v: Json): seq<Json>
  {
    match v
    case Arr(items) => items
    case Obj(_) => [v]
    case _ => []
  }

  /** `load_outbox()`: every failure reads as `[]`. */
  function LoadOutbox(f: FileState): seq<Json>
  {
    if f.Holds? then AsList(f.value) else []
  }

  /** Saving a list and loading it again gives the list back. */
  lemma OutboxRoundTrip(xs: seq<Json>)
    ensures LoadOutbox(Saved(xs)) == xs
    ensures LoadJson(Saved(xs)) == Success(Arr(xs))
  {
  }

  /** The outbox after `outbox = load_outbox(); outbox.append(a); save_outbox(outbox)`. */
  function AppendToOutbox(f: FileState, a: Json): (g: FileState)
  {
    Saved(LoadOutbox(f) + [a])
  }

  /** Appending to the outbox keeps what it held, in order, and puts `a` last. */
  lemma AppendToOutboxSpec(f: FileState, a: Json)
    ensures LoadOutbox(AppendToOutbox(f, a)) == LoadOutbox(f) + [a]
    ensures f.Holds? && f.value.Arr? ==> LoadOutbox(AppendToOutbox(f, a)) == f.value.items + [a]
    ensures f.Holds? && f.value.Obj? ==> LoadOutbox(AppendToOutbox(f, a)) == [f.value, a]
  {
  }

  /** The entry `save_message` appends for the Follow `act` at time `stamp`. */
  function MessageRecord(act: seq<(string, Json)>, stamp: string): Json
  {
    Obj([("timestamp", Str(stamp + "Z")),
         ("type", Get(act, "type")),
         ("actor", Get(act, "actor")),
         ("object", Get(act, "object"))])
  }

  /** The entry records the Follow's `type`, `actor` and `object` (`null` when
      absent) and the time, marked as UTC. */
  lemma MessageRecordShape(act: seq<(string, Json)>, stamp: string)
    ensures MessageRecord(act, stamp).Obj?
    ensures var m := MessageRecord(act, stamp).members;
            && Keys(m) == ["timestamp", "type", "actor", "object"]
            && Get(m, "timestamp") == Str(stamp + "Z")
            && Get(m, "type") == Get(act, "type")
            && Get(m, "actor") == Get(act, "actor")
            && Get(m, "object") == Get(act, "object")
  {
    var m := MessageRecord(act, stamp).members;
    assert |"timestamp"| == 9 && |"type"| == 4 && |"actor"| == 5 && |"object"| == 6;
    LookupAt(m, 0, "timestamp");
    LookupAt(m, 1, "type");
    LookupAt(m, 2, "actor");
    LookupAt(m, 3, "object");
  }

  /** `save_message(act)` on `messages.json`: a missing file is created holding `[]`
      first; a list gets the record appended; every failure (decode error, a value
      that is not a list, a read error) is caught and leaves the file as it was. */
  function SavedMessages(f: FileState, record: Json): (g: FileState)
  {
    match f
    case Missing => Saved([record])
    case Holds(Arr(xs)) => Saved(xs + [record])
    case _ => f
  }

  /** The entries of a messages file that `save_message` can extend. */
  predicate Extensible(f: FileState) {
    f.Missing? || (f.Holds? && f.value.Arr?)
  }

  function Entries(f: FileState): seq<Json>
    requires Extensible(f)
  {
    if f.Missing? then [] else f.value.items
  }

  /** `save_message` appends exactly the one record when it can, and changes nothing
      otherwise. */
  lemma SavedMessagesSpec(f: FileState, record: Json)
    ensures Extensible(f) ==> Extensible(SavedMessages(f, record))
                              && Entries(SavedMessages(f, record)) == Entries(f) + [record]
    ensures !Extensible(f) ==> SavedMessages(f, record) == f
  {
  }

  /** The inbox after `inbox = load_json(INBOX_FILE); inbox.append(record); save_json(...)`,
      as written: a list is extended; a missing or undecodable file starts a new
      list; any other loaded value has no `append`, and the process ends. */
  function InboxAppendAsWritten(f: FileState, record: Json): (r: Result<FileState, Crash>)
  {
    match LoadJson(f)
    case Failure(e) => Failure(e)
    case Success(Arr(xs)) => Success(Saved(xs + [record]))
    case Success(v) => Failure(NoAppend(v))
  }

  /** As written, an inbox holding a single JSON object (or any other non-list) ends
      the process before the record is stored. */
  lemma InboxObjectCrashesAsWritten(m: seq<(string, Json)>, record: Json)
    ensures InboxAppendAsWritten(Holds(Obj(m)), record) == Failure(NoAppend(Obj(m)))
  {
  }

  /** The inbox append with the loaded value normalised as the outbox loader does:
      only a read error still ends the process. */
  function InboxAppend(f: FileState, record: Json): (r: Result<FileState, Crash>)
  {
    match LoadJson(f)
    case Failure(e) => Failure(e)
    case Success(v) => Success(Saved(AsList(v) + [record]))
  }

  /** The inbox append keeps every earlier entry in order and adds exactly the one
      record at the end; it fails only when the file cannot be read, and it agrees
      with the source wherever the source does not crash. */
  lemma InboxAppendSpec(f: FileState, record: Json)
    ensures InboxAppend(f, record).Failure? <==> f.Unreadable?
    ensures InboxAppend(f, record).Success? ==>
              LoadOutbox(InboxAppend(f, record).value) == LoadOutbox(f) + [record]
    ensures InboxAppendAsWritten(f, record).Success? ==> InboxAppend(f, record) == InboxAppendAsWritten(f, record)
  {
  }
}
