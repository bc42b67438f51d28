# A verified model of the owfstest1 command-and-control core

This project models, in Dafny, the three pieces of logic that the repository
builds its command-and-control system on, and proves what each promises.

- **The rendezvous server (`c2.py`).**
  - State: the `clients` registry of peers, the `messages` list of command
    records, and the frames pushed down each websocket.
  - Operations: registration (`register_client`), handshake field
    selection (`connection_handler`), command dispatch (`handle_command`),
    response correlation (`handle_response`), retention filtering
    (`cleanup_old_messages`), the client-list snapshot
    (`send_client_list`), and the per-role receive loops.
  - It is the class `C2Server.Server`, whose methods change
    `clients`, `messages` and the send log `sent` in place.
  - The combinational parts are functions with their own lemmas: first-match
    correlation, the retention filter, the snapshot, the handshake.
- **The HTTP log service (`api/c2.py`).**
  - `write_log` appends a line `YYYY-MM-DD HH:MM:SS - <message>`.
  - `read_logs` reads the lines back within a time range, skipping lines
    before `start` and stopping at the first line after `end`.
  - `do_GET` and `do_POST` validate around them.
  - Module `LogApi` holds these; modules `Timestamps` and `Text` hold the
    `strftime`/`strptime` format and the `str` operations they depend on.
- **The controller's client-list text (`controller.py`).**
  - `update_infected_list` renders `<id> - <role> (Last Seen: <t>)`.
  - `show_infected_info` and `fetch_laptop_data` split that text apart again.
  - `listen_for_responses` keeps the controller's id and list up to date.
  - Module `Controller` holds these: class `TrojanController` with the
    fields `clientId` and `entries` (the listbox), and the format and parse
    as functions with round-trip lemmas.

Abstractions:

- **Transport.**
  - A websocket is a `Channel` handle.
  - Every `websocket.send` appends a `Delivery` to the server's `sent` log.
    Restricted to one channel, that log is the peer's outbox in send order.
  - Whether a send goes through is a `SendOutcome` parameter: delivered, the
    connection closed, or another exception. An example of the last is
    `json.dumps` refusing the `datetime` values inside a command record.
  - The contracts state every outcome, so nothing depends on serialisation
    succeeding.
- **Clocks and fresh ids.**
  - `datetime.now()` and `uuid.uuid4()` are the parameters `now` and
    `freshId`.
  - On the server a time is an integer count of microseconds, and the
    retention period is one day of them.
  - In the log service a time is a calendar `DateTime`.
  - `int(time.time())` in `do_POST` is the parameter `stamp`.
- **Files and requests.**
  - The log folder is a map from file name to text; a missing key is a
    missing file.
  - A decoded JSON body or query is a map from key to text.
- **Errors.** An exception that ends a loop is an explicit result:
  - `Next.Stop` in the server's receive loops;
  - `ok == false` in the controller's;
  - `None` for a `ValueError` in the log service;
  - specific `ResponseOutcome` values for `handle_response`.

## Where the code differs from the intended design

The system is meant to have an `agent` role, a sweeper that retires stale
peers, and a queue of commands pending for absent peers. The code has none
of these and differs in other places too; this model follows the code.

- **Role name.** The peer role that runs commands is `infected`, not
  `agent`.
- **No sweeper.** There is no background sweeper and no grace window;
  nothing ever removes a peer from `clients`. `cleanup_old_messages`
  exists but has no caller.
- **No pending queue.** There is no pending-command queue. A command for an
  absent or non-`infected` target is logged and dropped, and the
  per-peer `messages` list is created empty and never written.
- **`assign_id` always sent.** `register_client` sends `assign_id` also when
  the peer supplied its own id, and it replaces the whole record (last
  writer wins).
- **Unmatched responses.** When no record matches, `handle_response` does
  not drop the response cleanly. It goes on with whatever the loop variable
  holds: the last record, or nothing at all for an empty list. The model
  leaves that case unspecified (see `C2Server.Server.HandleResponse` below).
- **Registered origins.** The relay of a response checks only that the
  origin is still a key of `clients`. A disconnected origin is still a key,
  so its response goes to its old channel.
- **Disconnect marking.** `disconnected_at` is set on a close and never read
  again. The snapshot lists disconnected peers too, and `handle_command`
  dispatches to them.

## Model

| member | source | states |
|---|---|---|
| `Text.Find` | api/c2.py:34 | the index of the first occurrence of the separator, or the length when there is none, with no occurrence before it |
| `Text.Before` | controller.py:208 | `split(sep)[0]` is a prefix of the text, and is all of it when the separator does not occur |
| `Text.After` | api/c2.py:34 | the second half of `split(sep, 1)` exists exactly when the separator occurs, and the text is the first half, the separator and the second half |
| `Text.BeforeHasNone` | controller.py:208 | `split(sep)[0]` holds no separator, and the first separator of the text starts right after it |
| `Text.SplitConcat` | api/c2.py:34 | splitting `a + sep + b` at its first separator gives back `a` and `b` when no separator starts inside `a` |
| `Text.LStripRemovesLeadingSpace` | api/c2.py:42 | `lstrip` keeps a suffix, removes only whitespace and leaves no leading whitespace |
| `Text.RStripRemovesTrailingSpace` | api/c2.py:42 | `rstrip` keeps a prefix, removes only whitespace and leaves no trailing whitespace |
| `Text.StripKeepsInnerSlice` | api/c2.py:42 | `strip` returns a slice of the line with only whitespace cut on either side and none left at either end |
| `Text.RStripCharRemovesTrailing` | controller.py:228 | `rstrip(')')` keeps a prefix, removes only `)` and leaves no trailing `)` |
| `Timestamps.EarlierIsStrictTotalOrder` | api/c2.py:37-39 | the `datetime` comparison used by the bounds is irreflexive, transitive and total |
| `Timestamps.Format` | api/c2.py:24 | `strftime('%Y-%m-%d %H:%M:%S')` of a valid time has the 19-character shape with digits and separators in place |
| `Timestamps.Parse` | api/c2.py:35 | a string `strptime` accepts denotes a valid time that formats back to the same string |
| `Timestamps.FormatFields` | api/c2.py:35 | reading the fields of a well-shaped string and writing them back gives the string |
| `Timestamps.ParseFormat` | api/c2.py:24-35 | every valid time that `write_log` formats is read back by `strptime` as the same time |
| `LogApi.NextNewline` | api/c2.py:33 | the line iterator's cut point: a newline at or after the start, or the end of the text |
| `LogApi.NextNewlineIsFirst` | api/c2.py:33 | no newline lies before that cut point, so a line ends at its first newline |
| `LogApi.LinesConcat` | api/c2.py:33 | iterating over the file's lines loses nothing: their concatenation is the file |
| `LogApi.LinesAreLines` | api/c2.py:33 | every line is nonempty and has no newline before its end |
| `LogApi.LinesTerminated` | api/c2.py:33 | every line but the last ends in a newline |
| `LogApi.ReadBack` | api/c2.py:32-33 | text mode reads a file back with every `\r\n` and every lone `\r` turned into `\n`, so no `\r` is left |
| `LogApi.ReadBackPlain` | api/c2.py:32-33 | text without a `\r` reads back unchanged |
| `LogApi.ReadBackConcat` | api/c2.py:25-33 | reading back two appended texts reads back each in turn, unless a `\r` ends the first and a `\n` starts the second |
| `LogApi.LinesAppend` | api/c2.py:25-26 | appending to a file that is empty or ends in a newline appends its lines |
| `LogApi.LogLine` | api/c2.py:24-26 | the line `write_log` writes ends in a newline and starts with the formatted time |
| `LogApi.WriteLog` | api/c2.py:22-26 | append mode: the log file, as text mode reads it back, gains exactly the new line at its end as it reads back; a missing file is created holding only that; no other file changes |
| `LogApi.LogLineIsOneLine` | api/c2.py:26-33 | a message with neither `\n` nor `\r` in it reads back unchanged, as exactly one line |
| `LogApi.LogLineWithBreak` | api/c2.py:26-33 | a message `a`, a line break (`\n` or `\r`), then a nonempty `b` without breaks reads back as two lines: the log line of `a`, and `b` with a newline |
| `LogApi.FormatNoEarlyDash` | api/c2.py:24-34 | a formatted timestamp contains no `" - "` that could split a log line early |
| `LogApi.LogLineSplits` | api/c2.py:24-35 | the line `write_log` writes splits at its first `" - "` into the timestamp and the message, and its timestamp parses back to the time written |
| `LogApi.StampAll` | api/c2.py:33-35 | each line of the file is paired with the time read from its head, in order |
| `LogApi.Scan` | api/c2.py:30-42 | a read that succeeds returns at most one entry per line |
| `LogApi.ScanLines` | api/c2.py:30-42 | the `for` loop with its `continue` and `break` computes the scan: skip lines before `start`, stop at the first line after `end`, fail on a line that does not parse, keep the rest stripped |
| `LogApi.ReadLogs` | api/c2.py:28-46 | a missing file reads as exactly `["No logs found."]`; otherwise the lines of the file are scanned |
| `LogApi.ScanUnbounded` | api/c2.py:33-42 | with no bounds and every line's timestamp parsing, every line comes back stripped and in file order |
| `LogApi.ScanUnboundedConcat` | api/c2.py:33-42 | with no bounds, reading two runs of lines reads the first, then the second |
| `LogApi.ScanIgnoresAfterLate` | api/c2.py:39-40 | after the first line later than `end`, nothing is read: later lines drop out even when in range or unparseable |
| `LogApi.ScanFailsOnBadLine` | api/c2.py:34-35 | a line the loop reaches without a `" - "` or with a bad timestamp makes the whole read fail |
| `LogApi.ScanEntriesInRange` | api/c2.py:37-42 | every entry returned is some line, stripped, whose time lies within the bounds |
| `LogApi.ScanKeepsEveryInRangeLine` | api/c2.py:33-42 | completeness: when every line before index `n` parses and is in range or early, and line `n` (if any) is the first late one, the read returns exactly the in-range lines before `n`, stripped and in file order |
| `LogApi.Bound` | api/c2.py:65-66 | an empty bound is no bound; a nonempty one is a parse error exactly when `strptime` refuses it, and otherwise a valid time that formats back to the text |
| `LogApi.DoGet` | api/c2.py:50-79 | 400 exactly for a target that is not a known log; for a known one, the 500 text exactly when a bound does not parse or the read fails, and otherwise a 200 whose body is exactly the entries `read_logs` returns for the parsed bounds |
| `LogApi.GetInvalidTargetReadsNothing` | api/c2.py:58-62 | a GET for an unknown target answers 400 whatever the log folder holds |
| `LogApi.GetMissingFile` | api/c2.py:43-44 | a GET for a known log whose file is missing, with any bounds that parse, answers 200 with `["No logs found."]` |
| `LogApi.GetUnbounded` | api/c2.py:53-68 | a GET naming only the target reads the whole log |
| `LogApi.SenderLog` | api/c2.py:101-104 | sender `control` logs to `control.log`, senders `1` and `2` to their `infected_<n>.log`, and every other sender raises |
| `LogApi.NatToString` | api/c2.py:108 | `str(n)` of a whole number is a string of decimal digits whose value is `n`, with no leading zero |
| `LogApi.DumpIsNotALog` | api/c2.py:108-110 | an attached-file dump never overwrites a log file |
| `LogApi.DoPost` | api/c2.py:81-122 | 400 and nothing written exactly when sender, receiver or message is missing or empty; 500 and nothing written exactly for an unknown sender; otherwise one log line appended to the sender's log, the attached file stored under its dump name, and no other file touched |
| `LogApi.StampAfterWrite` | api/c2.py:25-35 | when the old log is empty or ends in a newline and the message holds neither `\n` nor `\r`: after `write_log`, the file reads as its old lines followed by the new line, whose time parses |
| `LogApi.ReadAfterWrite` | api/c2.py:22-42 | under the same conditions, reading a log after an append reads what it read before, then the new line |
| `LogApi.ReadAfterBrokenWrite` | api/c2.py:26-35 | when the old log is empty or ends in a newline and reads without error, a message with one line break whose second part holds no `" - "` makes the next read fail: that part is a line without a separator |
| `LogApi.PostThenGet` | api/c2.py:50-117 | when the sender's log is missing, empty or ends in a newline, and the relayed text holds neither `\n` nor `\r`: after a successful POST, an unbounded GET of that log returns the earlier entries followed by the relayed message's line |
| `LogApi.PostBrokenThenGet` | api/c2.py:34-104 | a POST whose relayed text has one line break, as in `LogApi.ReadAfterBrokenWrite`, is answered 200, and the next unbounded GET of the sender's log answers 500 |
| `LogApi.CarriageReturnBreaksLog` | api/c2.py:26-102 | relaying the message `x\ry` from `control` to `r` into an empty folder is answered 200, and the next GET of `control` answers 500 |
| `C2Server.ReadHandshake` | c2.py:210-213 | the handshake succeeds exactly when it has a role; the client id is always read, the user name only for a controller and the data only for an infected peer |
| `C2Server.HandshakeSelectsByRole` | c2.py:212-213 | a handshake never keeps both a user name and a data field |
| `C2Server.Snapshot` | c2.py:179-187 | the client list is keyed by exactly the ids of `clients` |
| `C2Server.MarkDisconnected` | c2.py:76 | a close sets only `disconnected_at` of that id; the record stays, and every other key is unchanged |
| `C2Server.SnapshotListsEveryPeer` | c2.py:179-187 | the client list has exactly the keys of `clients`, each with its last-seen, role, user name and data |
| `C2Server.SnapshotHidesChannels` | c2.py:179-187 | the client list depends on nothing but those four fields, so it never exposes a websocket |
| `C2Server.SnapshotKeepsDisconnected` | c2.py:179-187 | a disconnected peer stays in the client list with the same entry |
| `C2Server.FirstMatch` | c2.py:162-163 | the scan stops at the first record with the command id, or runs off the end when there is none |
| `C2Server.Correlate` | c2.py:162-167 | storing a response keeps the length of the record list |
| `C2Server.CorrelateChangesFirstMatchOnly` | c2.py:162-167 | a response changes only the first record with its id, and there only the response and its time; with no match, nothing changes |
| `C2Server.CorrelateKeepsCommands` | c2.py:162-167 | storing a response keeps the length of the list and every command field |
| `C2Server.Retained` | c2.py:33 | the cleanup never lengthens the list |
| `C2Server.RetainedMembers` | c2.py:33 | a record survives the cleanup exactly when it was issued after the cutoff |
| `C2Server.RetainedConcat` | c2.py:33 | the cleanup keeps the survivors in their original order |
| `C2Server.RetainedYoung` | c2.py:33 | every survivor is younger than the cutoff, and the list never grows |
| `C2Server.RetainedAllYoung` | c2.py:33 | a list of young records is left as it is |
| `C2Server.RetainedIdempotent` | c2.py:30-33 | cleaning up twice with the same clock gives the same list as cleaning up once |
| `C2Server.Server.constructor` | c2.py:22-23 | the server starts with no clients, no records and nothing sent |
| `C2Server.Server.Send` | c2.py:56 | a send that goes through appends exactly that frame to that channel's outbox; a failed one appends nothing and raises |
| `C2Server.Server.RegisterClient` | c2.py:38-57 | a missing or empty id is replaced by the fresh one and a supplied one is kept; a brand-new record under that id replaces any earlier one, every other key stays the same; `assign_id` with that id is sent in every case |
| `C2Server.Server.ConnectionHandler` | c2.py:203-227 | a closed, malformed or role-less first frame registers nothing and sends nothing; otherwise the peer is registered with the fields its role selects, and a close during the `assign_id` send marks a supplied id disconnected |
| `C2Server.Server.HandleCommand` | c2.py:126-153 | a record is sent exactly when the target is a key whose role is `infected`; a delivered send then appends exactly that record, and otherwise nothing changes and nothing is sent; missing fields raise before anything happens |
| `C2Server.Server.HandleResponse` | c2.py:157-173 | the records after the call are the first-match correlation of the response; a matched record is relayed to its origin exactly when the origin is a key of `clients` |
| `C2Server.Server.SendClientList` | c2.py:177-199 | the sender gets the snapshot as an `infected_list` frame; a failed send changes nothing |
| `C2Server.Server.CleanupOldMessages` | c2.py:30-34 | the list is replaced by the records issued within the last day |
| `C2Server.Server.ControllerStep` | c2.py:62-85 | a close marks the controller disconnected and ends the loop, a malformed frame ends it; a `command` with all fields for an `infected` target sends exactly its record frame to the target and appends the record when delivered, and a failed send ends the loop (a close also marks the controller disconnected); a `command` for any other target changes no record and sends nothing, and one missing a field ends the loop; `request_client_list` sends the snapshot; other types are ignored; the set of peers never changes |
| `C2Server.Server.InfectedStep` | c2.py:90-110 | a close marks the peer disconnected and ends the loop; a `response` missing a field ends the loop; one with both fields stores it in the first matching record and relays that record to its origin when the origin is a key of `clients`, ending the loop when the relay fails; with no match the records are unchanged and the step is `Unknown`; other frames change nothing |
| `C2Server.Server.HandleControllerMessages` | c2.py:61-85 | a controller session never adds or removes a peer, only appends records and only appends to outboxes, and every frame handled before the last was received |
| `C2Server.Server.HandleInfectedMessages` | c2.py:89-110 | an infected session never adds or removes a peer or a record and never changes a command field |
| `C2Server.Server.RelayMessages` | c2.py:114-122 | the session is handled by the loop its role selects, and any other role handles nothing and changes nothing |
| `Controller.FirstStartingWith` | controller.py:225-226 | the index of the first entry that starts with the id, with none before it |
| `Controller.Entry` | controller.py:201 | every entry starts with the id it was rendered for, which is what the prefix lookup relies on |
| `Controller.SelectedId` | controller.py:208 | the id read from an entry is a prefix of it with no `" - "` in it, and the entry's first `" - "` starts right after it |
| `Controller.ParseEntry` | controller.py:227-228 | the parse succeeds exactly when the entry contains both `" - "` and `"Last Seen: "`; otherwise the split raises |
| `Controller.FetchSpec` | controller.py:225-230 | with no entry starting with the id the result is role `Unknown` and last-seen `N/A`; otherwise it is the parse of the first entry starting with the id |
| `Controller.EntryIdRoundTrip` | controller.py:201-208 | the id read from an entry is the id it was rendered from, when the id has no `" - "` and does not end in `" -"` |
| `Controller.RoleRoundTrip` | controller.py:227 | the role is the text before `" ("` within the text up to the next `" - "` |
| `Controller.LastSeenRoundTrip` | controller.py:228 | the last-seen time is the text after the first `"Last Seen: "` with the closing `)` stripped |
| `Controller.EntryRoundTrip` | controller.py:227-228 | an entry parses back into the role and last-seen it was rendered from, under the stated conditions on the fields |
| `Controller.FetchMatchesByPrefix` | controller.py:225-226 | the lookup matches by prefix: with `ab` listed before `a`, looking up `a` yields the entry of `ab` |
| `Controller.RenderedEntries` | controller.py:198-202 | one entry per item in order, each in the entry format with `Unknown Role` and `N/A` as defaults, all items rendered when every value is an object |
| `Controller.RenderedStopsAt` | controller.py:199-201 | rendering stops at the first value that is not an object |
| `Controller.RenderedExtends` | controller.py:199-202 | each object value in turn adds exactly its own entry at the end |
| `Controller.FirstIsAt` | controller.py:225-226 | the index where the loop returns is the first entry starting with the id |
| `Controller.ClickShowsRenderedLaptop` | controller.py:197-229 | a click on a rendered entry opens the window of that laptop with its own role and last-seen, under the round-trip conditions and when no earlier entry starts with its id |
| `Controller.Receive` | controller.py:137-155 | only `assign_id` changes the client id: one with `client_id` sets the id to it, one without ends the loop unchanged; an `infected_list` with a mapping renders it (ending the loop when a value is not an object), one whose `infected_laptops` is not a mapping clears the list and ends the loop, and one without the key ends the loop unchanged; `response` changes nothing and ends the loop when `id` or `response` is missing; other types change nothing; a malformed frame ends the loop |
| `Controller.ListenKeepsLastAssignedId` | controller.py:142-145 | the id the loop leaves is the one the last handled `assign_id` carried, or the saved one |
| `Controller.Listen` | controller.py:134-155 | the loop handles at most all of its frames |
| `Controller.TrojanController.constructor` | controller.py:28 | the controller starts with the saved id and an empty list |
| `Controller.TrojanController.UpdateInfectedList` | controller.py:197-202 | the list is cleared and then holds exactly the rendered entries, in order; the call raises exactly when some value before the end is not an object, or the mapping is not one |
| `Controller.TrojanController.FetchLaptopData` | controller.py:223-230 | the first entry starting with the id is parsed, and with none the result is role `Unknown` and last-seen `N/A` |
| `Controller.TrojanController.ShowInfectedInfo` | controller.py:204-209 | a click opens the window of the id before the first `" - "` of the selected entry, with that id's fetched data; no selection opens nothing |
| `Controller.TrojanController.ListenStep` | controller.py:136-155 | one frame changes the id and the list exactly as `Receive` says |
| `Controller.TrojanController.ListenForResponses` | controller.py:134-155 | the loop leaves the id and the list, and the count of handled frames, that `Listen` gives |

## Left out

- C2Server.Server.HandleResponse: when no record matches, the model promises only that no record changes and at most one frame is sent. The code then relays whatever record the loop variable holds, or raises for an empty list.
- C2Server.Server.InfectedStep: for the same unmatched case, whether the loop goes on is `Next.Unknown`.
- C2Server.Server.HandleInfectedMessages: the modelled run also ends at an `Unknown` step, where the code, for a nonempty list, relays the last record and goes on.
- C2Server.Server.HandleControllerMessages: states frame conditions (peers, records only appended, outboxes only appended), not the composition of every step.
- C2Server.Server.HandleInfectedMessages: states frame conditions (peers, commands untouched, outboxes only appended), not the composition of every step.
- C2Server.Server.RelayMessages: states the same frame conditions as the two loops it selects between.
- Controller.Listen: its own contract says only that it counts at most its frames. What it computes is stated through `Controller.Receive`, `Controller.ListenKeepsLastAssignedId` and `Controller.TrojanController.ListenForResponses`.
- Timestamps.Parse: accepts only the zero-padded form `strftime` writes, with one space between date and time. `strptime` also accepts unpadded fields such as `2024-1-5 3:4:5`, and any run of whitespace for the space; the model reads those as a parse error (a 500 from `do_GET`).
- Timestamps.Format: pads the year to four digits. Python's `%Y` for years below 1000 depends on the platform.
- LogApi.DoPost: a receiver containing `/` puts the dump's name inside a directory that need not exist, so the dump's `open` can fail. The code then answers 500 with the log line already written; the model has no failing file system and answers 200.
- Text.StripKeepsInnerSlice: whitespace is the ASCII set; `str.strip()` also removes Unicode spaces.
- Transport and concurrency: websockets, asyncio, the `main` serve loop and `get_local_ip` are not modelled. Each session's frames are handled sequentially by one method. Interleaving of sessions is not modelled.
- Logging: `jsonlogger`, the logger calls in `c2.py`, and the controller's `log`, `load_log` and `save_log` are not modelled. They only write text.
- Serialisation: `json.dumps` and `json.loads` are not modelled.
  - A frame is a map of text fields; an outgoing frame is a tagged value.
  - The `datetime` values in records, and `isoformat()` in the snapshot, stay as times.
  - A `json.dumps` failure is the send outcome `SendFailed`.
- JSON value types: every value is text. Non-string values (numbers, nested objects) in frames, in POST bodies and in the laptop map are not modelled. The one exception is `infected_laptops` values that are not objects, which are.
- C2Server.Snapshot: the client list is a map, so the insertion order of `clients.items()` is lost. That order is the order of the controller's listbox, and so it decides which entry the prefix match of `fetch_laptop_data` finds first; the controller side takes the order as given by its `Laptop` sequence.
- `send_client_list` default: the `{}` default for `data` is never used, because every record has a `data` key.
- HTTP plumbing: headers, `Content-Length`, body decoding and `parse_qs` are not modelled. A query is a map from key to its first value.
  - `parse_qs(self.path[1:])` sees the key `?target` for a path `/?target=…`. This quirk lies in the left-out parsing.
  - A POST body that is not a JSON object raises outside the handler's `try`, and is not modelled.
- File I/O: the actual `open`, `write` and `os.makedirs` calls are not modelled.
  - The folder is a map; errors other than a missing file are not modelled.
  - The dump's `encode()` is the identity.
  - The folder holds each file as text mode reads it back. `LogApi.ReadBack` is the universal-newline translation of what `write_log` writes. The dump's `\r` characters, which are written in binary mode and never read, are stored as given.
- Controller GUI: Tk widgets, windows, the retry loop of `async_connect`, `request_infected_list`, the empty command buttons and `on_closing` are not modelled. `open_info_window` is modelled only by the id and data it is given.
- Controller persistence: `load_client_id` is the constructor's parameter, and `save_client_id` is left out.
- `fetch_laptop_data`'s `data`: it is always `{}`, so `LaptopData` leaves it out.
