# ActivityPub over LMTP: a Dafny model

This project models the mail side of a small ActivityPub node. The node carries activities inside e-mail and delivers them with LMTP. Three scripts make up the core:

- `script/activitypub-send.py` sends the latest outbox entry to an LMTP server.
  - `_read_reply` parses one server reply, single-line or multi-line (section 4.2.1 of RFC 5321).
  - `send_via_lmtp` runs the dialogue: an optional 220 banner, LHLO (section 4.1 of RFC 2033), MAIL FROM, RCPT TO, DATA, the body and a best-effort QUIT.
  - `main` picks the entry to send and its subject, and sets the exit status.
- `script/activitypub-lmtp.py` is the delivery handler. It reads one inbound message and picks its body. When the body is JSON, it appends an inbox record. For every `Follow` in the payload it:
  - records a message entry;
  - appends an `Accept` to the outbox;
  - asks the sender script to deliver that Accept.
- `script/ai_message_envelope.py` is the AI Message Envelope v0.1. It covers:
  - agent-ID validation against `^https?://[^\s/@]+/@[^\s/@]+$`;
  - recipient de-duplication;
  - the payload type check and the best-effort JSON coercion of the payload;
  - the dict form of the thread metadata and of the envelope.

The modules follow that structure:

| module | file | models |
|---|---|---|
| `Wrappers` | `wrappers.dfy` | `Option` and `Result` |
| `Text` | `text.dfy` | Python `str.strip` with `str.isspace`, `int()` on a code prefix, `str()` of an integer |
| `Json` | `json.dfy` | JSON values; a dict is an association list in insertion order; `get`, truthiness and `or` |
| `LmtpClient` | `lmtp_client.dfy` | the reply parser and the dialogue, as functions over a scripted connection (`Link`) and as the `Connection` class whose methods read and write in place |
| `LmtpProperties`, `LmtpScenarios` | `lmtp_properties.dfy` | what the parser and the dialogue guarantee: codes, multi-line replies, the command trace, the banner fallback |
| `OutboxSender` | `sender.dfy` | `main` of the sender: entry selection, subject, endpoint, exit status |
| `Stores` | `stores.dfy` | `load_json`, `load_outbox`, `save_outbox` and `save_message` over the state of a store file |
| `Processor` | `processor.dfy` | the delivery handler: body selection, records, the Follow→Accept loop, as functions and as the `Node` class over its three files |
| `ProcessorProperties` | `processor_properties.dfy` | one inbox entry per message; one Accept, one message entry and one sender run per Follow, in order |
| `AgentIds` | `agent_ids.dfy` | the agent-ID pattern, as a left-to-right reading and as a set of strings |
| `Envelopes` | `envelopes.dfy` | the envelope: validation, normalisation, `__post_init__`, `to_dict`/`from_dict` and their round trip |

Three abstractions run through the model:

- **The connection.** A connection is a script of what successive `readline()` calls meet: a line, or a timeout. A used-up script is end of file. Every write is recorded, and the `writable` budget says how many writes the peer accepts.
- **Store files.** A store file is what `json.load` makes of it: missing, unreadable, not JSON, or holding a value.
- **Parameters.** `json.loads` is the parameter `parse`. The clock readings, `uuid4()` and the existence of the Dovecot socket are parameters too (`Moment`, `now`, `freshId`).

## Model

| member | source | states |
|---|---|---|
| Text.TrimStartSpec | script/activitypub-send.py:18 | `lstrip` removes exactly the leading Python whitespace: what it keeps is a suffix that is empty or starts with a non-space |
| Text.TrimEndSpec | script/activitypub-send.py:18 | `rstrip` removes exactly the trailing whitespace: what it keeps is a prefix that is empty or ends with a non-space |
| Text.StripSpec | script/activitypub-send.py:18-19 | `strip()` gives a contiguous slice of the line without whitespace at either end, and is empty exactly when the line is all whitespace, which is when `not first` holds |
| Text.StripNoop | script/activitypub-send.py:18 | a line without whitespace at its ends is its own strip |
| Text.Strip | script/activitypub-send.py:18 | definition of `str.strip()`; its properties are `Text.StripSpec` and `Text.StripNoop` |
| Text.Take | script/activitypub-send.py:25 | `first[:3]` is the prefix of length min(3, len) |
| Text.ParseThreeDigits | script/activitypub-send.py:25 | `int()` of three digits is the number they spell |
| Text.ParseRejectsNoDigits | script/activitypub-send.py:24-27 | `int()` of a prefix without a digit raises |
| Text.ParseInt | script/activitypub-send.py:25 | definition of `int()` on a code prefix; its properties are `Text.ParseThreeDigits` and `Text.ParseRejectsNoDigits` |
| Text.DigitValue | script/activitypub-send.py:25 | a digit's value is below ten |
| Text.DigitChar | script/activitypub-send.py:38 | the digit written for a value below ten reads back as that value |
| Text.DigitRoundTrip | script/activitypub-send.py:38 | reading a digit and writing it back gives the digit |
| Text.PrintThreeDigits | script/activitypub-send.py:25-38 | `str(int(first[:3]))` gives the three characters back when the code has no leading zero, so `f"{code}-"` matches the reply's own prefix |
| Json.Keys | script/ai_message_envelope.py:102-112 | the keys of a dict are its entries' keys, in insertion order |
| Json.LookupSpec | script/ai_message_envelope.py:120 | `d[key]` finds a value exactly when the key is present, and the value is the one stored under its first occurrence |
| Json.LookupNone | script/ai_message_envelope.py:120 | a lookup fails exactly when the key is absent |
| Json.LookupFirst | script/ai_message_envelope.py:120 | a successful lookup returns the entry of the first occurrence of the key |
| Json.LookupAt | script/ai_message_envelope.py:120-127 | an entry not preceded by its key is the one a lookup returns |
| Json.Texts | script/ai_message_envelope.py:92 | a list of strings as JSON keeps every string in its place |
| LmtpClient.NextLine | script/activitypub-send.py:18 | `readline().strip()` never writes. It consumes at most one event, and a non-empty line consumes exactly one |
| LmtpClient.WriteLine | script/activitypub-send.py:73 | `write(); flush()` never reads. It succeeds exactly when the peer accepts a write, and it then appends the data to the trace |
| LmtpClient.ReadContinuation | script/activitypub-send.py:29-38 | the continuation loop never writes. A complete reply keeps the code and every line already read, and adds at least one line |
| LmtpClient.ParseReply | script/activitypub-send.py:13-42 | reading a reply never writes and never touches the write budget |
| LmtpClient.Exchange | script/activitypub-send.py:73-74 | a command is written before its reply is read, and a reply is judged only after its command was written |
| LmtpClient.GreetingAsWritten | script/activitypub-send.py:61-87 | definition of the greeting as the source runs it: a timed-out probe leaves the connection refusing reads. Its failure is `LmtpScenarios.TimedOutProbeBreaksFallbackAsWritten` |
| LmtpClient.Greeting | script/activitypub-send.py:61-87 | definition of the corrected greeting (Findings, first row); its properties are `LmtpProperties.GreetingTrace` and the `LmtpScenarios` greeting lemmas |
| LmtpClient.Transaction | script/activitypub-send.py:89-110 | definition of MAIL FROM, RCPT TO, DATA, the body and the best-effort QUIT; its properties are `LmtpProperties.TransactionTrace` and `LmtpScenarios.TransactionDelivers` |
| LmtpClient.DialogueAsWritten | script/activitypub-send.py:56-110 | definition of `send_via_lmtp` as written, on an open connection |
| LmtpClient.Dialogue | script/activitypub-send.py:56-110 | definition of `send_via_lmtp` with the corrected greeting; its properties are `LmtpProperties.DeliveryTrace` and the `LmtpScenarios` delivery lemmas |
| LmtpClient.GreetingAgrees | script/activitypub-send.py:61-69 | the corrected greeting is the source's greeting whenever the banner probe does not time out |
| LmtpClient.DialogueAgrees | script/activitypub-send.py:56-110 | the corrected dialogue is the source's dialogue whenever the banner probe does not time out |
| LmtpClient.Connection.constructor | script/activitypub-send.py:56-57 | a new connection has the whole script pending, no timeout and an empty trace |
| LmtpClient.Connection.ReadLine | script/activitypub-send.py:18 | the in-place read agrees with `NextLine` on its result and on the new connection state |
| LmtpClient.Connection.Write | script/activitypub-send.py:73 | the in-place write agrees with `WriteLine` |
| LmtpClient.Connection.ReadReply | script/activitypub-send.py:13-42 | the loop over `cont` and `lines` returns what `ParseReply` specifies and leaves the connection where it says |
| LmtpClient.Connection.Command | script/activitypub-send.py:89-91 | write-then-read agrees with `Exchange` |
| LmtpClient.Connection.Greet | script/activitypub-send.py:61-87 | the banner probe and the LHLO flags agree with the corrected `Greeting`, and with the source's `GreetingAsWritten` whenever the probe does not time out |
| LmtpClient.Connection.SendViaLmtp | script/activitypub-send.py:56-110 | the whole in-place dialogue agrees with the corrected `Dialogue`, and with the source's `DialogueAsWritten` whenever the probe does not time out |
| LmtpProperties.Lines | script/activitypub-send.py:18 | one event per raw line |
| LmtpProperties.Stripped | script/activitypub-send.py:32-36 | one kept line per raw line |
| LmtpProperties.Sent | script/activitypub-send.py:89-103 | one written command per request |
| LmtpProperties.SentTransaction | script/activitypub-send.py:89-103 | the transaction's requests write MAIL FROM:<from>, RCPT TO:<to>, DATA and the body followed by `\r\n.\r\n`, in that order |
| LmtpProperties.EmptyFirstLineFails | script/activitypub-send.py:18-20 | end of file, or a first line of whitespace only, is an empty reply, whatever code is expected |
| LmtpProperties.NextLineOf | script/activitypub-send.py:18 | a read from a script that starts with a line consumes that line and yields it stripped |
| LmtpProperties.FirstThreeDigitsAreTheCode | script/activitypub-send.py:24-27 | when the first three characters are digits, the reply is neither empty nor invalid, and any reply returned carries the number they spell |
| LmtpProperties.NonNumericCodeFails | script/activitypub-send.py:24-27 | a first line whose first three characters hold no digit fails as an invalid reply, after consuming only that line |
| LmtpProperties.ReadsOneLine | script/activitypub-send.py:24-42 | a reply whose fourth character is not `-` is that single line. It succeeds exactly when no code is expected or its code is the one expected, and it consumes one line |
| LmtpProperties.ContinuationStep | script/activitypub-send.py:31-38 | a line with the `code-` prefix is kept, and the loop reads on |
| LmtpProperties.ContinuationEnds | script/activitypub-send.py:31-38 | a non-empty line without the `code-` prefix is kept and ends the reply |
| LmtpProperties.ContinuationReadsAll | script/activitypub-send.py:29-38 | continuation lines are read up to and including the first one without the prefix. Every line read is kept, stripped, in order, and the rest of the script is left unread |
| LmtpProperties.FirstLineContinues | script/activitypub-send.py:30 | a reply is multi-line when its fourth character is `-`. The rest of the reply is then read before the code is judged |
| LmtpProperties.ReadsMultiLine | script/activitypub-send.py:13-42 | a whole multi-line reply is returned with every line in order, and judged on its first line's code only after its last line was read |
| LmtpProperties.TruncatedContinuationFails | script/activitypub-send.py:32-34 | end of file, or an empty line, inside a multi-line reply is a truncated reply |
| LmtpProperties.ExpectationOnlyJudgesCode | script/activitypub-send.py:40-41 | an expected code consumes the same input as none. It turns only a complete reply with another code into a failure |
| LmtpProperties.ContinuationNeverJudgesCode | script/activitypub-send.py:31-38 | the continuation loop never fails on a code |
| LmtpProperties.NoExpectationAcceptsAnyCode | script/activitypub-send.py:40 | without an expected code, no code is ever a failure |
| LmtpProperties.ConverseTrace | script/activitypub-send.py:89-103 | a successful run of requests has written exactly their commands, in order |
| LmtpProperties.TransactionTrace | script/activitypub-send.py:89-110 | a successful transaction writes exactly MAIL FROM, RCPT TO, DATA and the body, then QUIT or nothing |
| LmtpProperties.GreetingTrace | script/activitypub-send.py:61-87 | a successful greeting writes one LHLO, or two when the reply to the first one is 220; after a 220 banner it writes exactly one |
| LmtpProperties.DeliveryTrace | script/activitypub-send.py:61-110 | a successful delivery writes one or two LHLO, then the four transaction commands, then QUIT or nothing; after a 220 banner it writes one LHLO |
| LmtpScenarios.ProbeSeesNoBanner | script/activitypub-send.py:63-69 | a timeout, a blank line, a malformed line or a non-220 one-line reply makes the banner probe consume that one event and report no banner. The connection is marked timed out exactly when the event was the timeout |
| LmtpScenarios.GreetingWithoutBanner | script/activitypub-send.py:61-74 | without a banner, the corrected greeting sends LHLO blind on a connection that is still usable. When the probe met a line rather than a timeout, the source's greeting is the same |
| LmtpScenarios.ExchangeWrites | script/activitypub-send.py:73-74 | a command that can be written is written, and then its reply is read |
| LmtpScenarios.ExchangeOneLine | script/activitypub-send.py:89-91 | a command answered by a one-line reply succeeds exactly when the code is the one expected, and writes the command |
| LmtpScenarios.ConverseAccepted | script/activitypub-send.py:89-103 | requests each answered with their expected code all pass. They consume one line each and write their commands in order |
| LmtpScenarios.ConverseStep | script/activitypub-send.py:89-91 | a request answered with its code hands over to the next request |
| LmtpScenarios.TransactionDelivers | script/activitypub-send.py:89-110 | replies 250, 250, 354 and 250 deliver the message. The trace is the four commands and then QUIT if it could be written, whatever happens to the QUIT |
| LmtpScenarios.MailFromRefused | script/activitypub-send.py:89-91 | a reply to MAIL FROM other than 250 fails the delivery with that code |
| LmtpScenarios.GreetingAfterBanner | script/activitypub-send.py:84-87 | after a 220 banner, exactly one LHLO is sent, and it succeeds exactly when answered 250 |
| LmtpScenarios.BlindGreetingAccepted | script/activitypub-send.py:61-81 | without a banner, a blind LHLO answered 250 ends the corrected greeting after one LHLO; the source does the same unless the probe timed out |
| LmtpScenarios.BlindLhloMetBanner | script/activitypub-send.py:75-78 | a 220 reply to the blind LHLO draws a second LHLO, which must be answered 250 |
| LmtpScenarios.BlindGreetingMetBanner | script/activitypub-send.py:61-78 | without a banner, a 220 reply to the blind LHLO gives two LHLO, and the corrected greeting succeeds exactly when the second is answered 250; the source does the same unless the probe timed out |
| LmtpScenarios.BlindGreetingRefused | script/activitypub-send.py:61-83 | without a banner, a blind-LHLO reply other than 220 and 250 fails the corrected greeting with that code; the source does the same unless the probe timed out |
| LmtpScenarios.BlindGreetingMalformed | script/activitypub-send.py:61-74 | only the probe is protected: a malformed reply to the blind LHLO fails the corrected greeting, and the source's the same way unless the probe timed out |
| LmtpScenarios.BlindLhloMalformed | script/activitypub-send.py:74 | a malformed reply to the blind LHLO is an invalid reply |
| LmtpScenarios.BlindLhloFails | script/activitypub-send.py:73-74 | a failing blind-LHLO exchange fails the greeting with the same error |
| LmtpScenarios.TimedOutProbeBreaksFallbackAsWritten | script/activitypub-send.py:61-74 | as written, a banner probe that times out makes every later read fail, so the blind LHLO fallback cannot succeed |
| LmtpScenarios.DeliversAfterBannerTimeout | script/activitypub-send.py:61-110 | with the fallback as intended, a probe timeout followed by 250, 250, 250, 354 and 250 delivers with one LHLO |
| LmtpScenarios.DeliversAfterBanner | script/activitypub-send.py:56-110 | banner 220, then 250, 250, 250, 354, 250: delivered. The trace is LHLO, the four commands and QUIT when it could be written |
| LmtpScenarios.DeliversWithoutBanner | script/activitypub-send.py:61-110 | no banner, then 250, 250, 250, 354, 250: the corrected dialogue delivers with one blind LHLO, and so does the source unless the probe timed out |
| LmtpScenarios.DialogueAfterGreeting | script/activitypub-send.py:84-110 | after a successful greeting, the dialogue is the transaction that follows it |
| OutboxSender.Endpoint | script/activitypub-send.py:47-54 | definition of the connection target; the handler's use of it is stated by `Processor.DeliveryArgsSpec` |
| OutboxSender.SelectItems | script/activitypub-send.py:129-139 | definition of the entries an outbox offers; the entry sent is stated by `OutboxSender.SendsLatest` and `OutboxSender.RunDeliversLatest` |
| OutboxSender.Display | script/activitypub-send.py:149 | `str()` of a string is the string; lists and dicts are not rendered |
| OutboxSender.SendsLatest | script/activitypub-send.py:145-149 | the last entry is sent, with subject `ActivityPub <type>`, or `ActivityPub Activity` without a type |
| OutboxSender.PlanFor | script/activitypub-send.py:122-149 | definition of what `main` does before connecting; its properties are `OutboxSender.SendsLatest` and `OutboxSender.EarlyExitStatus` |
| OutboxSender.Run | script/activitypub-send.py:122-171 | definition of `main` on an open connection, with the corrected dialogue; its properties are `OutboxSender.RunDeliversLatest` and `OutboxSender.EarlyExitStatus` |
| OutboxSender.RunDeliversLatest | script/activitypub-send.py:129-171 | a run that sends the last offered entry exits 0 exactly when the server accepted it, and then one or two LHLO, the transaction for that entry under `ActivityPub <type>`, and maybe QUIT were written, in that order |
| OutboxSender.EarlyExitStatus | script/activitypub-send.py:122-143 | a run that sends nothing leaves the connection untouched, and exits 0 exactly when the outbox was read and offered no entry |
| OutboxSender.Deliver | script/activitypub-send.py:122-171 | `main` on an open connection agrees with `Run` on both the exit status and the connection |
| Stores.OutboxRoundTrip | script/activitypub-lmtp.py:68-85 | saving a list and loading it again gives the list back |
| Stores.LoadJson | script/activitypub-lmtp.py:42-49 | definition of `load_json`; used by `Stores.InboxAppendSpec` |
| Stores.LoadOutbox | script/activitypub-lmtp.py:68-81 | definition of `load_outbox`; its properties are `Stores.OutboxRoundTrip` and `Stores.AppendToOutboxSpec` |
| Stores.AppendToOutbox | script/activitypub-lmtp.py:146-148 | definition of load, append and `save_outbox`; its property is `Stores.AppendToOutboxSpec` |
| Stores.AppendToOutboxSpec | script/activitypub-lmtp.py:68-85 | appending keeps the outbox's entries in order and puts the new one last. A stored dict becomes the first entry |
| Stores.MessageRecordShape | script/activitypub-lmtp.py:25-30 | the message entry has the keys `timestamp`, `type`, `actor` and `object`. It copies the Follow's fields (`null` when absent) and stamps the time with `Z` |
| Stores.SavedMessages | script/activitypub-lmtp.py:15-36 | definition of `save_message`; its property is `Stores.SavedMessagesSpec` |
| Stores.SavedMessagesSpec | script/activitypub-lmtp.py:15-36 | `save_message` appends exactly one entry when the file is missing or holds a list, and changes nothing otherwise |
| Stores.InboxAppendAsWritten | script/activitypub-lmtp.py:118-126 | definition of the inbox append as written; its failure is `Stores.InboxObjectCrashesAsWritten` |
| Stores.InboxAppend | script/activitypub-lmtp.py:118-126 | definition of the corrected inbox append (Findings, second row); its property is `Stores.InboxAppendSpec` |
| Stores.InboxObjectCrashesAsWritten | script/activitypub-lmtp.py:118-126 | as written, an inbox holding a dict ends the process at `append` |
| Stores.InboxAppendSpec | script/activitypub-lmtp.py:118-126 | the corrected inbox append keeps every entry and adds exactly the one record. It fails only on an unreadable file, and agrees with the source wherever the source does not crash |
| Processor.Find | script/activitypub-lmtp.py:100-103 | the position found is the first one from `from` on that the test accepts, and none is found only when no part matches |
| Processor.FindFirst | script/activitypub-lmtp.py:100-103 | the first matching part is the one found |
| Processor.SelectBody | script/activitypub-lmtp.py:98-107 | the walk over the parts returns the first `application/activity+json` part, else the first non-empty `text/plain` part, else nothing; a single-part message gives its content |
| Processor.MessageBody | script/activitypub-lmtp.py:98-107 | definition of the body choice; the loop `Processor.SelectBody` computes it |
| Processor.InboxRecordShape | script/activitypub-lmtp.py:119-125 | the inbox entry has the keys `timestamp`, `from`, `to`, `subject`, `activity`. It holds the whole payload, the `From` address (`null` without one) and every `To` |
| Processor.Activities | script/activitypub-lmtp.py:128 | definition of the payload's activity list: a list is itself, anything else a list of one |
| Processor.AcceptFor | script/activitypub-lmtp.py:137-144 | definition of the Accept; its properties are `ProcessorProperties.AcceptShape` and `ProcessorProperties.AcceptAnswers` |
| Processor.DeliveryArgs | script/activitypub-lmtp.py:150-161 | definition of the sender command line; its property is `Processor.DeliveryArgsSpec` |
| Processor.DeliveryArgsSpec | script/activitypub-lmtp.py:150-161 | the sender run goes from `follow@ipcnode.local` to the inbound sender with the node's outbox. It uses the Dovecot socket when it exists, else TCP to 127.0.0.1:2626 |
| Processor.Handle | script/activitypub-lmtp.py:129-176 | definition of one activity's effect: only a Follow has one |
| Processor.HandleAll | script/activitypub-lmtp.py:128-176 | definition of the loop over the activities; its properties are the `ProcessorProperties.HandleAll…` lemmas |
| Processor.Receive | script/activitypub-lmtp.py:87-181 | definition of the corrected handler; its properties are `ProcessorProperties.ReceiveHandles`, `OneInboxEntry` and `AcceptIsSentNext` |
| Processor.ReceiveAsWritten | script/activitypub-lmtp.py:87-181 | definition of the handler as written |
| Processor.ReceiveAgrees | script/activitypub-lmtp.py:114-126 | the corrected handler is the source's handler unless the inbox holds a non-list value. There the source stops unacknowledged without writing, unless the body is not JSON, while the corrected handler acknowledges |
| Processor.Node.constructor | script/activitypub-lmtp.py:87 | a node starts from its three files with no sender run requested |
| Processor.Node.SaveMessage | script/activitypub-lmtp.py:15-36 | the in-place `save_message` changes only `messages.json`, as `SavedMessages` says |
| Processor.Node.AppendAccept | script/activitypub-lmtp.py:146-148 | the in-place load-append-save changes only the outbox, as `AppendToOutbox` says |
| Processor.Node.HandleActivities | script/activitypub-lmtp.py:128-176 | the loop over the activities leaves the stores as `HandleAll` says |
| Processor.Node.Process | script/activitypub-lmtp.py:87-181 | the handler's acknowledgement and its stores agree with the corrected `Receive`, and with the source's `ReceiveAsWritten` unless the inbox holds a non-list value |
| ProcessorProperties.FollowIndices | script/activitypub-lmtp.py:129-131 | the positions listed are exactly those of the Follows, in increasing order |
| ProcessorProperties.PerFollowIndexed | script/activitypub-lmtp.py:129-131 | one entry per Follow, the k-th made from the k-th Follow |
| ProcessorProperties.AcceptShape | script/activitypub-lmtp.py:137-144 | the Accept is a dict with `@context`, `id`, `type`, `actor`, `object` and `timestamp`, and its type is `Accept` |
| ProcessorProperties.AcceptAnswers | script/activitypub-lmtp.py:137-144 | the Accept answers its Follow: its actor is the Follow's object, its object the whole Follow, and its id is under the node's activity IRI |
| ProcessorProperties.HandleAllInbox | script/activitypub-lmtp.py:128-176 | handling the activities never touches the inbox |
| ProcessorProperties.AcceptsSnoc | script/activitypub-lmtp.py:129-148 | the Accepts of a payload are those of its prefix, then that of its last Follow |
| ProcessorProperties.HandleAllOutboxSnoc | script/activitypub-lmtp.py:129-148 | the loop's last step acts on the outbox the earlier steps left |
| ProcessorProperties.OutboxGrows | script/activitypub-lmtp.py:146-148 | an outbox that already holds the earlier Accepts gains one more at the end |
| ProcessorProperties.HandleAllOutbox | script/activitypub-lmtp.py:129-148 | the outbox gains one Accept per Follow, in payload order, after what it held, and is left alone when there is no Follow |
| ProcessorProperties.HandleAllMessages | script/activitypub-lmtp.py:129-135 | `messages.json` gains one entry per Follow, in order, when it can be extended, and is left alone otherwise |
| ProcessorProperties.HandleAllRequests | script/activitypub-lmtp.py:150-176 | one sender run per Follow, in order, when the message has a `From` address, and none otherwise |
| ProcessorProperties.ReceiveHandles | script/activitypub-lmtp.py:114-131 | for the corrected handler, a JSON body with a readable inbox is acknowledged. The inbox is extended, then the activities are handled in order |
| ProcessorProperties.NonJsonBodyChangesNothing | script/activitypub-lmtp.py:114-181 | a body that is not JSON changes no store and requests no run, and `250 OK` is still printed |
| ProcessorProperties.OneInboxEntry | script/activitypub-lmtp.py:118-126 | for the corrected handler, a JSON body is acknowledged exactly when the inbox can be read. The inbox then gains exactly one entry after what it held; otherwise nothing changes |
| ProcessorProperties.LastAccept | script/activitypub-lmtp.py:137-148 | the last Accept of a payload is a dict of type `Accept` |
| ProcessorProperties.SavedAcceptIsSent | script/activitypub-send.py:129-149 | an outbox with an Accept last has that Accept sent, under `ActivityPub Accept` |
| ProcessorProperties.HandledAcceptIsSentNext | script/activitypub-lmtp.py:146-163 | after handling, the sender run sends the Accept of the last Follow |
| ProcessorProperties.AcceptIsSentNext | script/activitypub-lmtp.py:114-163 | once the corrected handler receives a payload with a Follow, the sender run sends the Accept for its last Follow |
| AgentIds.SchemeLength | script/ai_message_envelope.py:21 | the scheme read is `https://` or `http://` when found |
| AgentIds.ValidAgentId | script/ai_message_envelope.py:21 | definition of the full-string check, as a left-to-right reading; its property is `AgentIds.ValidAgentIdIff` |
| AgentIds.HandleLengthSpec | script/ai_message_envelope.py:21 | the greedy `[^\s/@]+` run is made of handle characters and stops at the first other one |
| AgentIds.HandleLengthOf | script/ai_message_envelope.py:21 | a greedy host run stops exactly before the `/` of `/@` |
| AgentIds.ComposeParts | script/ai_message_envelope.py:21 | where the scheme and the rest of a composed ID lie |
| AgentIds.HandleRun | script/ai_message_envelope.py:21 | a non-empty greedy run is a handle |
| AgentIds.ComposedInPattern | script/ai_message_envelope.py:21 | scheme, host, `/@` and name form an ID of the pattern |
| AgentIds.SplitAtSeparator | script/ai_message_envelope.py:21 | a string splits around the `/@` it holds |
| AgentIds.ValidInPattern | script/ai_message_envelope.py:21 | what the left-to-right reading accepts is in the pattern |
| AgentIds.ComposedIsValid | script/ai_message_envelope.py:21 | every string of the pattern is accepted by the left-to-right reading |
| AgentIds.ValidAgentIdIff | script/ai_message_envelope.py:21-29 | the left-to-right reading accepts exactly the strings `https?://` + host + `/@` + name |
| AgentIds.MatchesAgentPatternAsWritten | script/ai_message_envelope.py:21-25 | definition of `re.match` with `$` as written; its property is `AgentIds.TrailingNewlineAccepted` |
| AgentIds.TrailingNewlineAccepted | script/ai_message_envelope.py:21-25 | as written, `$` lets any accepted ID followed by a newline through, though the full-string check refuses it |
| AgentIds.NewlineExample | script/ai_message_envelope.py:21-25 | `https://a/@b` followed by a newline is such an ID |
| AgentIds.ValidHasNoSpace | script/ai_message_envelope.py:21 | an accepted ID holds no whitespace |
| AgentIds.ComposedHasNoSpace | script/ai_message_envelope.py:21 | no character of a composed ID is whitespace |
| Envelopes.ValidateAgentId | script/ai_message_envelope.py:24-29 | definition of the corrected validation (Findings, third row); its property is `Envelopes.ValidateAgentIdSpec` |
| Envelopes.ValidateAgentIdSpec | script/ai_message_envelope.py:24-29 | an ID is accepted exactly when it is a string of the pattern (the full-string check). It is returned unchanged, and a rejected string is reported as an invalid ID. On a string not ending in a newline the source's `re.match` gives the same answer |
| Envelopes.Iterate | script/ai_message_envelope.py:35 | `for x in v` fails exactly on `None`, booleans and numbers |
| Envelopes.FirstFaultNone | script/ai_message_envelope.py:35-36 | there is a fault exactly when some recipient fails validation |
| Envelopes.FirstFaultWitness | script/ai_message_envelope.py:35-36 | the fault reported is one a recipient raised |
| Envelopes.FaultPersists | script/ai_message_envelope.py:35-36 | once a prefix holds a fault, the whole list reports it: a later invalid recipient, a duplicate included, cannot mask it |
| Envelopes.Names | script/ai_message_envelope.py:35 | one text per recipient |
| Envelopes.DedupSnoc | script/ai_message_envelope.py:37-39 | one more recipient is appended exactly when it was not seen |
| Envelopes.Dedup | script/ai_message_envelope.py:37-39 | definition of the `seen`/`unique` de-duplication; its properties are `Envelopes.DedupSpec`, `DedupDistinct` and `DedupIdempotent` |
| Envelopes.FirstIndex | script/ai_message_envelope.py:37 | the first occurrence of a string |
| Envelopes.FirstIndexPrefix | script/ai_message_envelope.py:37 | a first occurrence in a prefix is the first occurrence in the whole |
| Envelopes.DedupSpec | script/ai_message_envelope.py:32-40 | de-duplication keeps exactly the input's strings, each once, in the order of their first occurrences |
| Envelopes.DedupDistinct | script/ai_message_envelope.py:32-40 | a list without duplicates is its own de-duplication |
| Envelopes.DedupIdempotent | script/ai_message_envelope.py:32-40 | de-duplicating twice is de-duplicating once |
| Envelopes.Normalised | script/ai_message_envelope.py:32-40 | definition of `_normalise_recipients`; its properties are the `Envelopes.Normalised…` and `Normalise…` lemmas |
| Envelopes.NormalisedSucceeds | script/ai_message_envelope.py:32-40 | normalising succeeds exactly when every recipient is a valid ID |
| Envelopes.NormalisedContents | script/ai_message_envelope.py:32-40 | a successful normalisation keeps each ID once, loses none and adds none |
| Envelopes.NormalisedOrder | script/ai_message_envelope.py:32-40 | the IDs come out in the order of their first occurrences |
| Envelopes.NormalisedIds | script/ai_message_envelope.py:32-40 | the result is a list of distinct valid IDs |
| Envelopes.NormaliseTwice | script/ai_message_envelope.py:32-40 | normalising a normalised list gives it back |
| Envelopes.NormaliseValid | script/ai_message_envelope.py:32-40 | a list of distinct valid IDs normalises to itself |
| Envelopes.NormaliseStep | script/ai_message_envelope.py:35-36 | the validation of one more recipient decides the prefix's fault |
| Envelopes.NamesPrefix | script/ai_message_envelope.py:35 | the texts of a longer prefix |
| Envelopes.NormaliseRecipients | script/ai_message_envelope.py:32-40 | the loop over `seen` and `unique` returns what `Normalised` specifies, whose properties are the lemmas above |
| Envelopes.ThreadToDict | script/ai_message_envelope.py:54-60 | the thread's dict form is a dict |
| Envelopes.ThreadToDictSpec | script/ai_message_envelope.py:54-60 | `to_dict` writes `context` and `inReplyTo` exactly when they are truthy, with their values, and never `in_reply_to` |
| Envelopes.ThreadRoundTrip | script/ai_message_envelope.py:54-68 | a thread comes back from its dict form exactly when both fields are `None` or truthy; an empty string comes back as `None` |
| Envelopes.ThreadFromNone | script/ai_message_envelope.py:62-68 | `from_dict(None)` is the empty thread, whose dict form is `{}` |
| Envelopes.ThreadFromDict | script/ai_message_envelope.py:62-68 | definition of `ThreadContext.from_dict`; its properties are `Envelopes.ThreadRoundTrip` and `ThreadFromNone` |
| Envelopes.Coerced | script/ai_message_envelope.py:95-100 | definition of the best-effort JSON coercion of the payload; its property is `Envelopes.CheckedKeeps` |
| Envelopes.Checked | script/ai_message_envelope.py:90-100 | definition of `__post_init__` as a value; its properties are `Envelopes.CheckOrder`, `CheckedValid`, `CheckedKeeps` and `CheckSettled` |
| Envelopes.CheckOrder | script/ai_message_envelope.py:90-94 | the checks run sender, then recipients, then payload type. An earlier fault wins, and construction fails exactly when one of them fails |
| Envelopes.CheckedValid | script/ai_message_envelope.py:90-94 | a constructed envelope has a valid sender, distinct valid recipients and the payload type `json` or `text` |
| Envelopes.CheckedKeeps | script/ai_message_envelope.py:90-100 | construction keeps every other attribute. It never touches a `text` payload, and changes a payload only by parsing a `json` string |
| Envelopes.CheckSettled | script/ai_message_envelope.py:90-100 | construction leaves attributes it has already settled unchanged |
| Envelopes.Envelope.constructor | script/ai_message_envelope.py:81-88 | the generated `__init__` stores the attributes as given |
| Envelopes.Envelope.PostInit | script/ai_message_envelope.py:90-100 | the in-place `__post_init__` raises `Checked`'s fault, or reassigns the attributes to the checked ones |
| Envelopes.ToDict | script/ai_message_envelope.py:102-112 | `to_dict` has exactly the keys `version`, `id`, `createdAt`, `sender`, `recipients`, `payload`, `payloadType`, `thread`, in that order |
| Envelopes.ToDictHead | script/ai_message_envelope.py:103-107 | `version`, `id`, `createdAt` and `sender` hold the attributes |
| Envelopes.ToDictPayload | script/ai_message_envelope.py:108-109 | `recipients` and `payload` hold the attributes |
| Envelopes.ToDictTail | script/ai_message_envelope.py:110-111 | `payloadType` holds the attribute and `thread` the thread's dict form |
| Envelopes.RoundTrip | script/ai_message_envelope.py:102-128 | `from_dict(to_dict(e))` gives back `e`'s attributes, provided construction would leave them as they are and the thread fields are `None` or truthy |
| Envelopes.RoundTripCoerces | script/ai_message_envelope.py:95-128 | a `json` string payload that parses comes back as its parse, not as the string |
| Envelopes.FromDict | script/ai_message_envelope.py:117-128 | definition of `Envelope.from_dict`; its properties are `Envelopes.RoundTrip`, `FromDictDefaults` and `FromDictNeedsSender` |
| Envelopes.OnlySenderGivesDefaults | script/ai_message_envelope.py:117-128 | a dict holding only `sender` gives every other attribute its default |
| Envelopes.FromDictDefaults | script/ai_message_envelope.py:117-128 | a dict with only a valid sender gives recipients `[]`, payload `None`, type `json`, the empty thread, version `v0.1`, a `urn:uuid:` id and the current time |
| Envelopes.FromDictNeedsSender | script/ai_message_envelope.py:120 | a dict without `sender` fails with `KeyError('sender')` |

## Left out

- Parsing the raw message with the `email` package is not modelled. The inbound message is given already parsed: `From`, every `To`, `Subject`, whether it is multipart, and its parts in `walk()` order.
- `json.loads` is the parameter `parse`. `json.dump`/`json.dumps`, `to_json` and `from_json` are not modelled; the message bytes the sender builds come from a `compose` parameter. The `EmailMessage` headers, `formatdate` and `make_msgid` are left out with them.
- JSON numbers are integers; floats are not modelled.
- A JSON dict is an association list, and a lookup takes the first entry with the key. Dicts with duplicate keys therefore do not arise as Python builds them.
- `Text.ParseInt` stands for `int()` on the code prefix. It reads ASCII digits only; the other Unicode decimal digits `int()` also accepts are not modelled.
- Opening the socket, `connect`, connection errors and the 3-second timeout are not modelled. A connection is an open, scripted link, and a read that times out is a `Timeout` event.
- Failed writes to the store files are not modelled: a save always succeeds. Concurrent writers and the lost update between a load and a save are not modelled either.
- The clock, `uuid4()` and the existence of the Dovecot socket are parameters (`Moment`, `now`, `freshId`).
- Logging (`log`, `print`) is not modelled, except for the `250 OK Message received` acknowledgement, which is the handler's result.
- `argparse` is not modelled: `OutboxSender.Args` holds the parsed options.
- The sender run in the handler is recorded as a request (`Processor.DeliveryArgs`); its result is only logged in the source. A message without `From` puts `None` into the command line; `subprocess.run` then raises, the handler logs it and no run takes place, so no request is recorded.
- OutboxSender.Display: `str()` of a list or a dict is not rendered. An entry whose `type` is a list or a dict (say `["Create", "Note"]`) gives the plan `SubjectNotModelled`.
- Run (OutboxSender.Run) requires a plan other than `SubjectNotModelled`: the source sends such an entry under the subject `ActivityPub ['Create', 'Note']`, and no run from such an outbox is modelled. Run also uses the corrected dialogue of the first finding; by `LmtpClient.DialogueAgrees` this is the source's dialogue unless the banner probe times out.
- Deliver (OutboxSender.Deliver) requires a plan other than `SubjectNotModelled`, as `Run` does, and uses the corrected dialogue of the first finding; by `LmtpClient.DialogueAgrees` this is the source's dialogue unless the banner probe times out.
- RunDeliversLatest (OutboxSender.RunDeliversLatest) is about the corrected dialogue of the first finding; by `LmtpClient.DialogueAgrees` this is the source's dialogue unless the banner probe times out.
- Greet (LmtpClient.Connection.Greet) models the corrected greeting of the first finding; it promises the same of the source only when the banner probe met a line rather than a timeout. The timed-out case as written is `LmtpScenarios.TimedOutProbeBreaksFallbackAsWritten`.
- SendViaLmtp (LmtpClient.Connection.SendViaLmtp) models the corrected dialogue of the first finding; by `LmtpClient.DialogueAgrees` this is the source's dialogue unless the banner probe times out.
- GreetingWithoutBanner (LmtpScenarios.GreetingWithoutBanner) is about the corrected greeting of the first finding; it promises the same of the source only when the banner probe met a line rather than a timeout.
- BlindGreetingAccepted (LmtpScenarios.BlindGreetingAccepted) is about the corrected greeting of the first finding; it promises the same of the source only when the banner probe met a line rather than a timeout.
- BlindGreetingMetBanner (LmtpScenarios.BlindGreetingMetBanner) is about the corrected greeting of the first finding; it promises the same of the source only when the banner probe met a line rather than a timeout.
- BlindGreetingRefused (LmtpScenarios.BlindGreetingRefused) is about the corrected greeting of the first finding; it promises the same of the source only when the banner probe met a line rather than a timeout.
- BlindGreetingMalformed (LmtpScenarios.BlindGreetingMalformed) is about the corrected greeting of the first finding; it promises the same of the source only when the banner probe met a line rather than a timeout.
- DeliversWithoutBanner (LmtpScenarios.DeliversWithoutBanner) is about the corrected dialogue of the first finding; by `LmtpClient.DialogueAgrees` this is the source's dialogue unless the banner probe times out.
- Process (Processor.Node.Process) models the corrected inbox append of the second finding; on an inbox holding a non-list value it does not describe the source, which stops there unacknowledged (`Processor.ReceiveAgrees`).
- Receive (Processor.Receive) models the corrected inbox append of the second finding; on an inbox holding a non-list value it does not describe the source, which stops there unacknowledged (`Processor.ReceiveAgrees`).
- ReceiveHandles (ProcessorProperties.ReceiveHandles) is about the corrected inbox append of the second finding; on an inbox holding a non-list value it does not describe the source, which stops there unacknowledged (`Processor.ReceiveAgrees`).
- OneInboxEntry (ProcessorProperties.OneInboxEntry) is about the corrected inbox append of the second finding; on an inbox holding a non-list value it does not describe the source, which stops there unacknowledged (`Processor.ReceiveAgrees`).
- AcceptIsSentNext (ProcessorProperties.AcceptIsSentNext) is about the corrected inbox append of the second finding; on an inbox holding a non-list value it does not describe the source, which stops there unacknowledged (`Processor.ReceiveAgrees`).
- ValidateAgentIdSpec (Envelopes.ValidateAgentIdSpec) states the full-string check of the third finding. An ID ending in a newline, which the source accepts, is rejected there, and so by every envelope property built on it (`Envelopes.NormalisedSucceeds`, `Envelopes.CheckOrder`, `Envelopes.CheckedValid`, `Envelopes.RoundTrip`, `Envelopes.FromDictDefaults`).
- Two crash paths of the source are not modelled. An `application/*` part's `get_content()` returns bytes, and a body that is not UTF-8 makes `json.loads` raise `UnicodeDecodeError`, which `except json.JSONDecodeError` does not catch (script/activitypub-lmtp.py:102-107). Setting `msg["Subject"]` raises `ValueError` for a `type` holding a line break, outside the `try` (script/activitypub-send.py:149).
- `load_inbox`, `save_inbox`, `log` and `_iso_timestamp` are outside this model. The first two are unused by the handler; the other two are I/O and the clock.
- Envelopes.FromDict takes the dict's entries, so a `from_dict` argument that is not a dict is not modelled. `ThreadContext` fields are JSON values, as the annotations promise.
- The text of the exceptions and the tracebacks is not modelled, only which exception it is (`LmtpClient.Fault`, `Envelopes.Fault`, `Stores.Crash`).

## Findings

| source | as written | input that shows it | evidently intended | confidence | as-written member | corrected member |
|---|---|---|---|---|---|---|
| script/activitypub-send.py:61-74 | The banner probe's `except Exception` swallows a `socket.timeout`, but a socket file object refuses every read after a timeout. The blind-LHLO reply can never be read, so a server that stays silent until LHLO is never reached. | a connection whose first read times out (no banner), then `250` to LHLO | after a probe timeout the blind LHLO is answered and the delivery goes on | not executed | LmtpScenarios.TimedOutProbeBreaksFallbackAsWritten | LmtpScenarios.DeliversAfterBannerTimeout |
| script/activitypub-lmtp.py:118-126 | `load_json` returns whatever `inbox.json` holds, and `inbox.append` is then called on it. A dict (or any non-list) raises `AttributeError`, the handler ends without storing the message, and `250 OK` is not printed. | `inbox.json` holding `{}` | the inbox is normalised to a list as `load_outbox` does, and the record is appended | not executed | Stores.InboxObjectCrashesAsWritten | Stores.InboxAppendSpec |
| script/ai_message_envelope.py:21-29 | `re.match` with `$` outside multi-line mode also matches before a final newline. An agent ID with a trailing newline is therefore accepted, and stored newline included. | `"https://a/@b\n"` | the whole string must be the ID (`\Z` or `fullmatch`) | not executed | AgentIds.TrailingNewlineAccepted | AgentIds.ValidAgentIdIff |
