/**
 * `main` of `script/activitypub-send.py`: which outbox entry is sent, under which
 * subject, over which endpoint, and the exit status.
 */
module OutboxSender {
  import opened Wrappers
  import opened Text
  import opened Json
  import opened Stores
  import opened LmtpClient
  import opened LmtpProperties

  const LmtpSocket := "/var/run/dovecot/lmtp"
  const OutboxPath := "/var/www/activitypub/outbox.json"
  const DefaultFrom := "follow@ipcnode.local"
  const DefaultTo := "alice@ipcnode.local"

  /** The command line once parsed: `--outbox`, `--socket`, `--host`, `--port`,
      `--from` and `--to`. */
  datatype Args = Args(outbox: string, socket: string, host: Option<string>, port: Option<int>, from: string, to: string)

  /** The arguments when none is given. */
  const Defaults := Args(OutboxPath, LmtpSocket, None, None, DefaultFrom, DefaultTo)

  /** Where `send_via_lmtp` connects. */
  datatype Target = UnixSocket(path: string) | Tcp(host: string, port: int)

  /** `send_via_lmtp`'s choice of endpoint: TCP when a non-empty host is given (port
      24 when the port is missing or 0), the Unix socket otherwise (the default path
      when the given one is empty). */
  function Endpoint(socket: string, host: Option<string>, port: Option<int>): (t: Target)
    ensures t.Tcp? <==> host.Some? && host.value != ""
    ensures t.Tcp? ==> t.host == host.value && t.port == (if port.Some? && port.value != 0 then port.value else 24)
    ensures t.UnixSocket? ==> t.path == (if socket != "" then socket else LmtpSocket)
  {
    if host.Some? && host.value != "" then Tcp(host.value, if port.Some? && port.value != 0 then port.value else 24)
    else UnixSocket(if socket != "" then socket else LmtpSocket)
  }

  /** The entries the outbox value offers: a list is itself; a dict offers its
      `orderedItems` list, else its `items` list, else itself; anything else nothing. */
  function SelectItems(v: Json): (items: seq<Json>)
  {
    match v
    case Arr(xs) => xs
    case Obj(m) =>
      (match Get(m, "orderedItems")
       case Arr(xs) => xs
       case _ =>
         match Get(m, "items")
         case Arr(ys) => ys
         case _ => [v])
    case _ => []
  }

  /** `str(v)` for the scalar JSON values; the text of a list or a dict is not part of
      this model. */
  function Display(v: Json): (r: Option<string>)
    ensures r.None? <==> v.Arr? || v.Obj?
    ensures v.Str? ==> r == Some(v.s)
  {
    match v
    case Null => Some("None")
    case Bool(b) => Some(if b then "True" else "False")
    case Num(n) => Some(IntToString(n))
    case Str(s) => Some(s)
    case _ => None
  }

  /** What `main` does with the outbox file before it connects. */
  datatype Plan =
    | OutboxMissing                         // "outbox not found", exit status 1
    | LoadCrashed                           // `json.load` raised: the process ends with status 1
    | NoActivities                          // "No activities in outbox.", exit status 0
    | LatestCrashed(latest: Json)           // the last entry has no `get`: status 1
    | SubjectNotModelled(latest: Json)      // the `type` is a list or a dict
    | Send(latest: Json, subject: string)

  function PlanFor(f: FileState): Plan
  {
    match f
    case Missing => OutboxMissing
    case Unreadable => LoadCrashed
    case Malformed => LoadCrashed
    case Holds(v) =>
      var items := SelectItems(v);
      if items == [] then NoActivities
      else
        var latest := items[|items| - 1];
        if !latest.Obj? then LatestCrashed(latest)
        else
          match Display(GetOr(latest.members, "type", Str("Activity")))
          case None => SubjectNotModelled(latest)
          case Some(t) => Send(latest, "ActivityPub " + t)
  }

  /** A list in the outbox, or a dict's `orderedItems` or `items` list, has its last
      entry sent, with the subject `ActivityPub <type>` (`Activity` without a type). */
  lemma SendsLatest(f: FileState, xs: seq<Json>, m: seq<(string, Json)>, t: string)
    requires f.Holds? && SelectItems(f.value) == xs + [Obj(m)]
    ensures Lookup(m, "type").None? ==> PlanFor(f) == Send(Obj(m), "ActivityPub Activity")
    ensures Lookup(m, "type") == Some(Str(t)) ==> PlanFor(f) == Send(Obj(m), "ActivityPub " + t)
  {
    assert (xs + [Obj(m)])[|xs + [Obj(m)]| - 1] == Obj(m);
  }

  /** The exit status of the plans that end before a connection is made. */
  function EarlyExit(p: Plan): int
    requires !p.Send?
  {
    if p.NoActivities? then 0 else 1
  }

  /** `main` with an open connection: the exit status and what became of the
      connection. `compose` builds the message bytes from the entry and the subject
      (the `EmailMessage` headers, date and message id are not part of this model). */
  function Run(f: FileState, l: Link, from: string, to: string, compose: (Json, string) -> string): (int, Link)
    requires !PlanFor(f).SubjectNotModelled?
  {
    var p := PlanFor(f);
    if p.Send? then
      var s := Dialogue(l, compose(p.latest, p.subject), from, to);
      (if s.result.Success? then 0 else 1, s.link)
    else (EarlyExit(p), l)
  }

  /** A run that sends the outbox's last entry exits with status 0 exactly when the
      server accepted it, and then the connection carried one or two LHLO commands,
      the transaction for that entry under the subject `ActivityPub <type>`, and
      maybe QUIT, in that order. */
  lemma {:induction false} RunDeliversLatest(
    f: FileState, xs: seq<Json>, m: seq<(string, Json)>, t: string,
    l: Link, from: string, to: string, compose: (Json, string) -> string)
    requires f.Holds? && SelectItems(f.value) == xs + [Obj(m)]
    requires Lookup(m, "type") == Some(Str(t)) || (Lookup(m, "type").None? && t == "Activity")
    ensures !PlanFor(f).SubjectNotModelled?
    ensures var message := compose(Obj(m), "ActivityPub " + t);
            Run(f, l, from, to, compose).0 == 0 <==> Dialogue(l, message, from, to).result.Success?
    ensures var message := compose(Obj(m), "ActivityPub " + t);
            Run(f, l, from, to, compose).0 == 0 ==>
              exists greeting, quit ::
                && (greeting == [Lhlo] || greeting == [Lhlo, Lhlo])
                && (quit == [] || quit == [Quit])
                && Run(f, l, from, to, compose).1.written == l.written + greeting + TransactionCommands(message, from, to) + quit
  {
    SendsLatest(f, xs, m, t);
    var message := compose(Obj(m), "ActivityPub " + t);
    if Dialogue(l, message, from, to).result.Success? {
      DeliveryTrace(l, message, from, to);
    }
  }

  /** A run that sends nothing leaves the connection as it was, and exits with status 0
      exactly when the outbox was read and offered no entry. */
  lemma EarlyExitStatus(f: FileState, l: Link, from: string, to: string, compose: (Json, string) -> string)
    requires !PlanFor(f).Send? && !PlanFor(f).SubjectNotModelled?
    ensures Run(f, l, from, to, compose).1 == l
    ensures Run(f, l, from, to, compose).0 == 0 <==> f.Holds? && SelectItems(f.value) == []
  {
  }

  /** `main` on an open connection. */
  method Deliver(conn: Connection, f: FileState, from: string, to: string, compose: (Json, string) -> string)
    returns (exit: int)
    requires !PlanFor(f).SubjectNotModelled?
    modifies conn
    ensures (exit, conn.State()) == Run(f, old(conn.State()), from, to, compose)
  {
    var plan := PlanFor(f);
    if !plan.Send? {
      return EarlyExit(plan);
    }
    var r := conn.SendViaLmtp(compose(plan.latest, plan.subject), from, to);
    exit := if r.Success? then 0 else 1;
  }
}
