/**
 * The rendezvous server of `c2.py`: the `clients` registry, the `messages`
 * list of command records, and the per-frame handling of controller and
 * infected sessions.
 *
 * Transport is abstracted: a websocket is a `Channel` handle, every
 * `websocket.send` is an append to the server's `sent` log (which is, per
 * channel, that peer's outbox in send order), and whether a send goes
 * through is a `SendOutcome` parameter.  The clock (`datetime.now()`) and
 * `uuid.uuid4()` are parameters `now` and `freshId`.
 */
module C2Server {
  import opened Wrappers

  type Id = string

  /** A websocket connection handle. */
  type Channel = int

  /** A point on the server clock, in microseconds (the resolution of `datetime`). */
  type Time = int

  /** MESSAGE_RETENTION_PERIOD: one day. */
  const RetentionPeriod: Time := 86_400_000_000

  /** The peer record that `register_client` stores under an id. */
  datatype Peer = Peer(
    channel: Channel,
    lastSeen: Time,
    role: string,
    data: Option<string>,            // free-form data of an infected peer
    username: Option<string>,        // user name of a controller
    messages: seq<string>,           // per-peer list, created empty and never written
    disconnectedAt: Option<Time>)

  /** An entry of the `messages` list: one routed command and, later, its response. */
  datatype Record = Record(
    id: string,
    origin: Id,
    target: Id,
    commandTime: Time,
    responseTime: Option<Time>,
    kind: string,                    // the `type` key, taken from `command_type`
    command: string,
    response: Option<string>)

  /** What `send_client_list` publishes about one peer. It has no channel. */
  datatype Summary = Summary(lastSeen: Time, role: string, username: Option<string>, data: Option<string>)

  /** A frame the server pushes down a channel. */
  datatype OutFrame =
    | AssignId(clientId: Id)
    | RecordFrame(record: Record)
    | InfectedList(infectedLaptops: map<Id, Summary>)

  datatype Delivery = Delivery(channel: Channel, frame: OutFrame)

  /** An inbound frame after `json.loads`: a JSON object whose values are kept as text. */
  datatype Frame = Frame(fields: map<string, string>)

  /** What one `websocket.recv()` (followed by `json.loads`) yields. */
  datatype Event =
    | Received(frame: Frame)
    | Closed                         // websockets.ConnectionClosed
    | Malformed                      // not JSON, or not a JSON object

  /** What happens to one `websocket.send`. */
  datatype SendOutcome =
    | Delivered
    | ConnectionLost                 // the send raises websockets.ConnectionClosed
    | SendFailed                     // any other exception, e.g. json.dumps refusing a datetime

  /** The exception, if any, that escapes an operation. */
  datatype Raised = NoRaise | RaisedClosed | RaisedOther

  /** One turn of a session's receive loop: the event and the values the environment supplies for it. */
  datatype Input = Input(event: Event, now: Time, freshId: string, send: SendOutcome)

  /** How a session's receive loop goes on after a frame. */
  datatype Next =
    | Continue
    | Stop
    | Unknown                        // the source goes on with a value this model leaves unspecified

  /** A session that passed the handshake. */
  datatype Session = Session(id: Id, role: string)

  /** The fields kept from a handshake frame. */
  datatype Handshake = Handshake(role: string, clientId: Option<string>, username: Option<string>, data: Option<string>)

  /** How `handle_response` ends. */
  datatype ResponseOutcome =
    | FieldMissing                   // `command_id` or `response` absent: KeyError
    | Unmatched                      // no record has that id
    | NotRelayed                     // record updated, origin no longer a key of clients
    | Relayed(raised: Raised)        // record updated and sent to the origin's channel

  function RaisedBy(send: SendOutcome): Raised {
    match send
    case Delivered => NoRaise
    case ConnectionLost => RaisedClosed
    case SendFailed => RaisedOther
  }

  /** The deliveries one `send` of `f` on `ch` contributes. */
  function Sends(ch: Channel, f: OutFrame, send: SendOutcome): seq<Delivery> {
    if send == Delivered then [Delivery(ch, f)] else []
  }

  /** `frame.get(key)`. */
  function Field(f: Frame, key: string): Option<string> {
    Get(f.fields, key)
  }

  /** The id `register_client` uses: the supplied one unless it is missing or empty (`if not client_id`). */
  function ResolvedId(supplied: Option<string>, freshId: Id): Id {
    if supplied.None? || supplied.value == "" then freshId else supplied.value
  }

  /** The brand-new record `register_client` stores. */
  function NewPeer(ws: Channel, now: Time, role: string, data: Option<string>, username: Option<string>): Peer {
    Peer(ws, now, role, data, username, [], None)
  }

  /** The handshake fields `connection_handler` selects. `None`: the frame has no `role` (KeyError). */
  function ReadHandshake(f: Frame): (h: Option<Handshake>)
    ensures h.Some? <==> "role" in f.fields
    ensures h.Some? ==> h.value.role == f.fields["role"] && h.value.clientId == Field(f, "client_id")
    ensures h.Some? ==> h.value.username == (if h.value.role == "controller" then Field(f, "username") else None)
    ensures h.Some? ==> h.value.data == (if h.value.role == "infected" then Field(f, "data") else None)
  {
    if "role" !in f.fields then None
    else
      var role := f.fields["role"];
      Some(Handshake(
        role,
        Field(f, "client_id"),
        if role == "controller" then Field(f, "username") else None,
        if role == "infected" then Field(f, "data") else None))
  }

  /** A handshake never carries both a user name and a data field: the role selects at most one. */
  lemma HandshakeSelectsByRole(f: Frame)
    requires ReadHandshake(f).Some?
    ensures var h := ReadHandshake(f).value;
      !(h.username.Some? && h.data.Some?)
      && (h.username.Some? ==> h.role == "controller")
      && (h.data.Some? ==> h.role == "infected")
  {
  }

  /** The target test of `handle_command`: a key of `clients` whose role is `infected`. `disconnectedAt` plays no part. */
  predicate IsAgent(clients: map<Id, Peer>, id: Id) {
    id in clients && clients[id].role == "infected"
  }

  /** `handle_command` reads `target`, `command` and `command_type`, each a KeyError when missing. */
  predicate HasCommandFields(f: Frame) {
    "target" in f.fields && "command" in f.fields && "command_type" in f.fields
  }

  /** The record `handle_command` builds for frame `f` from `origin`. */
  function CommandRecord(f: Frame, origin: Id, now: Time, commandId: string): Record
    requires HasCommandFields(f)
  {
    Record(commandId, origin, f.fields["target"], now, None, f.fields["command_type"], f.fields["command"], None)
  }

  /** `clients[id]['disconnected_at'] = now`, when `id` is a key (otherwise the source raises KeyError and nothing changes). */
  function MarkDisconnected(clients: map<Id, Peer>, id: Id, now: Time): (r: map<Id, Peer>)
    ensures r.Keys == clients.Keys
    ensures forall k :: k in clients && k != id ==> r[k] == clients[k]
    ensures id in clients ==> r[id].disconnectedAt == Some(now)
    ensures id in clients ==> r[id].(disconnectedAt := clients[id].disconnectedAt) == clients[id]
  {
    if id in clients then clients[id := clients[id].(disconnectedAt := Some(now))] else clients
  }

  /** The `clients_list` of `send_client_list`: one summary per key, channel left out. */
  function Snapshot(clients: map<Id, Peer>): (r: map<Id, Summary>)
    ensures r.Keys == clients.Keys
  {
    map id | id in clients :: Summary(clients[id].lastSeen, clients[id].role, clients[id].username, clients[id].data)
  }

  /** The snapshot lists every key of `clients`, disconnected ones included, with exactly its four published fields. */
  lemma SnapshotListsEveryPeer(clients: map<Id, Peer>, id: Id)
    ensures id in Snapshot(clients) <==> id in clients
    ensures id in clients ==>
      Snapshot(clients)[id] == Summary(clients[id].lastSeen, clients[id].role, clients[id].username, clients[id].data)
  {
  }

  /**
   * The snapshot reveals nothing but the four published fields: two registries
   * that agree on keys, last_seen, role, username and data give equal
   * snapshots, whatever their channels, per-peer lists and disconnect times.
   */
  lemma SnapshotHidesChannels(c1: map<Id, Peer>, c2: map<Id, Peer>)
    requires c1.Keys == c2.Keys
    requires forall id :: id in c1 ==>
      c1[id].lastSeen == c2[id].lastSeen && c1[id].role == c2[id].role
      && c1[id].username == c2[id].username && c1[id].data == c2[id].data
    ensures Snapshot(c1) == Snapshot(c2)
  {
  }

  /** A disconnected peer stays listed, with the same summary. */
  lemma SnapshotKeepsDisconnected(clients: map<Id, Peer>, id: Id, now: Time)
    ensures Snapshot(MarkDisconnected(clients, id, now)) == Snapshot(clients)
  {
    SnapshotHidesChannels(MarkDisconnected(clients, id, now), clients);
  }

  // ---------------------------------------------------------------------------
  // Response correlation

  /** The index of the first record whose id is `commandId`, or `|ms|` when there is none. */
  function FirstMatch(ms: seq<Record>, commandId: string): (k: nat)
    ensures k <= |ms|
    ensures k < |ms| ==> ms[k].id == commandId
    ensures forall j :: 0 <= j < k ==> ms[j].id != commandId
  {
    if ms == [] then 0
    else if ms[0].id == commandId then 0
    else 1 + FirstMatch(ms[1..], commandId)
  }

  /** `ms` after `handle_response` has stored `response` at time `now` for `commandId`. */
  function Correlate(ms: seq<Record>, commandId: string, response: string, now: Time): (r: seq<Record>)
    ensures |r| == |ms|
  {
    var k := FirstMatch(ms, commandId);
    if k < |ms| then ms[k := ms[k].(response := Some(response), responseTime := Some(now))] else ms
  }

  /**
   * Only the first record with the id changes, and only in its response and
   * response time; with no such record nothing changes. A later record that
   * repeats the id is never reached.
   */
  lemma {:induction false} CorrelateChangesFirstMatchOnly(ms: seq<Record>, commandId: string, response: string, now: Time)
    ensures var r := Correlate(ms, commandId, response, now);
      (forall j :: 0 <= j < |ms| && ms[j].id != commandId ==> r[j] == ms[j])
      && (forall i, j :: 0 <= i < j < |ms| && ms[i].id == commandId ==> r[j] == ms[j])
      && ((forall j :: 0 <= j < |ms| ==> ms[j].id != commandId) ==> r == ms)
      && (forall j :: 0 <= j < |ms| && ms[j].id == commandId && (forall i :: 0 <= i < j ==> ms[i].id != commandId) ==>
            r[j] == ms[j].(response := Some(response), responseTime := Some(now)))
  {
    var k := FirstMatch(ms, commandId);
  }

  /** Records `a` and `b` describe the same commands; at most their responses differ. */
  predicate SameCommands(a: seq<Record>, b: seq<Record>) {
    |a| == |b| &&
    forall j :: 0 <= j < |a| ==>
      a[j].(response := None, responseTime := None) == b[j].(response := None, responseTime := None)
  }

  lemma CorrelateKeepsCommands(ms: seq<Record>, commandId: string, response: string, now: Time)
    ensures SameCommands(ms, Correlate(ms, commandId, response, now))
  {
  }

  // ---------------------------------------------------------------------------
  // Retention

  /** The list comprehension of `cleanup_old_messages`: the records with `command_time > cutoff`, in order. */
  function Retained(ms: seq<Record>, cutoff: Time): (r: seq<Record>)
    ensures |r| <= |ms|
  {
    if ms == [] then []
    else (if ms[0].commandTime > cutoff then [ms[0]] else []) + Retained(ms[1..], cutoff)
  }

  /** A record survives exactly when it was in the list and is younger than the cutoff, whatever its response. */
  lemma {:induction false} RetainedMembers(ms: seq<Record>, cutoff: Time, x: Record)
    ensures x in Retained(ms, cutoff) <==> x in ms && x.commandTime > cutoff
  {
    if ms != [] {
      RetainedMembers(ms[1..], cutoff, x);
      assert ms == [ms[0]] + ms[1..];
    }
  }

  /** Filtering distributes over concatenation, so the survivors keep their relative order. */
  lemma {:induction false} RetainedConcat(a: seq<Record>, b: seq<Record>, cutoff: Time)
    ensures Retained(a + b, cutoff) == Retained(a, cutoff) + Retained(b, cutoff)
  {
    if a == [] {
      assert a + b == b;
    } else {
      assert (a + b)[1..] == a[1..] + b;
      RetainedConcat(a[1..], b, cutoff);
    }
  }

  /** Every survivor is younger than the cutoff, and the result is never longer than the input. */
  lemma {:induction false} RetainedYoung(ms: seq<Record>, cutoff: Time)
    ensures |Retained(ms, cutoff)| <= |ms|
    ensures forall j :: 0 <= j < |Retained(ms, cutoff)| ==> Retained(ms, cutoff)[j].commandTime > cutoff
  {
    if ms != [] { RetainedYoung(ms[1..], cutoff); }
  }

  /** A list of young records is left as it is. */
  lemma {:induction false} RetainedAllYoung(ms: seq<Record>, cutoff: Time)
    requires forall j :: 0 <= j < |ms| ==> ms[j].commandTime > cutoff
    ensures Retained(ms, cutoff) == ms
  {
    if ms != [] {
      RetainedAllYoung(ms[1..], cutoff);
      assert ms == [ms[0]] + ms[1..];
    }
  }

  /** Cleaning up twice with the same clock gives the same list as once. */
  lemma RetainedIdempotent(ms: seq<Record>, cutoff: Time)
    ensures Retained(Retained(ms, cutoff), cutoff) == Retained(ms, cutoff)
  {
    RetainedYoung(ms, cutoff);
    RetainedAllYoung(Retained(ms, cutoff), cutoff);
  }

  // ---------------------------------------------------------------------------
  // The server state

  class Server {
    /** The `clients` dictionary. */
    var clients: map<Id, Peer>
    /** The `messages` list, in insertion order. */
    var messages: seq<Record>
    /** Every frame pushed down a channel, in send order. */
    var sent: seq<Delivery>

    constructor ()
      ensures clients == map[] && messages == [] && sent == []
    {
      clients := map[];
      messages := [];
      sent := [];
    }

    /** `websocket.send(json.dumps(f))`. */
    method Send(ch: Channel, f: OutFrame, send: SendOutcome) returns (raised: Raised)
      modifies this`sent
      ensures sent == old(sent) + Sends(ch, f, send)
      ensures raised == RaisedBy(send)
    {
      if send == Delivered {
        sent := sent + [Delivery(ch, f)];
      }
      raised := RaisedBy(send);
    }

    /**
     * `register_client`: store a brand-new record under the supplied id, or
     * under `freshId` when none or an empty one is supplied, replacing any
     * earlier record under that id (last writer wins); then send `assign_id`
     * carrying that id, whether or not it was supplied.
     */
    method RegisterClient(ws: Channel, role: string, clientId: Option<string>, data: Option<string>,
                          username: Option<string>, now: Time, freshId: Id, send: SendOutcome)
      returns (id: Id, raised: Raised)
      modifies this
      ensures id == (if clientId.None? || clientId.value == "" then freshId else clientId.value)
      ensures clients == old(clients)[id := Peer(ws, now, role, data, username, [], None)]
      ensures messages == old(messages)
      ensures sent == old(sent) + Sends(ws, AssignId(id), send)
      ensures raised == RaisedBy(send)
    {
      id := ResolvedId(clientId, freshId);
      clients := clients[id := NewPeer(ws, now, role, data, username)];
      raised := Send(ws, AssignId(id), send);
    }

    /**
     * Steps 1 and 2 of `connection_handler`: read the handshake, keep
     * `username` only for a controller and `data` only for an infected peer,
     * register. A closed or malformed first frame, or one without `role`,
     * ends the connection before anything is registered. If the `assign_id`
     * send finds the channel closed, the peer is marked disconnected only
     * when the handshake named an id that is a key (the fresh id is not yet
     * known to the handler).
     */
    method ConnectionHandler(ws: Channel, first: Event, now: Time, freshId: Id, send: SendOutcome)
      returns (session: Option<Session>)
      modifies this
      ensures messages == old(messages)
      ensures !(first.Received? && ReadHandshake(first.frame).Some?) ==>
        session.None? && clients == old(clients) && sent == old(sent)
      ensures first.Received? && ReadHandshake(first.frame).Some? ==>
        var h := ReadHandshake(first.frame).value;
        var id := ResolvedId(h.clientId, freshId);
        var registered := old(clients)[id := NewPeer(ws, now, h.role, h.data, h.username)];
        && sent == old(sent) + Sends(ws, AssignId(id), send)
        && session == (if send == Delivered then Some(Session(id, h.role)) else None)
        && clients == (if send == ConnectionLost && h.clientId.Some? && h.clientId.value in registered
                       then MarkDisconnected(registered, h.clientId.value, now) else registered)
    {
      session := None;
      if !first.Received? {
        return;
      }
      var hs := ReadHandshake(first.frame);
      if hs.None? {
        return;
      }
      var h := hs.value;
      var id, raised := RegisterClient(ws, h.role, h.clientId, h.data, h.username, now, freshId, send);
      if raised == NoRaise {
        session := Some(Session(id, h.role));
      } else if raised == RaisedClosed && h.clientId.Some? && h.clientId.value in clients {
        clients := MarkDisconnected(clients, h.clientId.value, now);
      }
    }

    /**
     * `handle_command`: when the target is a key whose role is `infected`,
     * send the new record to the target's channel and, if that send goes
     * through, append it to `messages`; otherwise change nothing and send
     * nothing. The registry is never touched.
     */
    method HandleCommand(f: Frame, origin: Id, now: Time, commandId: string, send: SendOutcome)
      returns (raised: Raised)
      modifies this`messages, this`sent
      ensures !HasCommandFields(f) ==> raised == RaisedOther && messages == old(messages) && sent == old(sent)
      ensures HasCommandFields(f) && !IsAgent(clients, f.fields["target"]) ==>
        raised == NoRaise && messages == old(messages) && sent == old(sent)
      ensures HasCommandFields(f) && IsAgent(clients, f.fields["target"]) ==>
        var rec := CommandRecord(f, origin, now, commandId);
        && sent == old(sent) + Sends(clients[rec.target].channel, RecordFrame(rec), send)
        && messages == old(messages) + (if send == Delivered then [rec] else [])
        && raised == RaisedBy(send)
    {
      if !HasCommandFields(f) {
        return RaisedOther;
      }
      var target := f.fields["target"];
      if target in clients && clients[target].role == "infected" {
        var rec := CommandRecord(f, origin, now, commandId);
        raised := Send(clients[target].channel, RecordFrame(rec), send);
        if raised == NoRaise {
          messages := messages + [rec];
        }
      } else {
        raised := NoRaise;
      }
    }

    /**
     * `handle_response`: scan `messages` in order, store the response in the
     * first record with the given id and stop; then relay that record to its
     * origin's channel if the origin is still a key of `clients`. When no
     * record matches, no record changes; what the source then relays is left
     * unspecified (only that it sends at most one frame).
     */
    method HandleResponse(f: Frame, now: Time, send: SendOutcome) returns (outcome: ResponseOutcome)
      modifies this`messages, this`sent
      ensures outcome == FieldMissing <==> !("command_id" in f.fields && "response" in f.fields)
      ensures outcome == FieldMissing ==> messages == old(messages) && sent == old(sent)
      ensures outcome != FieldMissing ==>
        messages == Correlate(old(messages), f.fields["command_id"], f.fields["response"], now)
      ensures outcome != FieldMissing ==>
        (outcome == Unmatched <==> FirstMatch(old(messages), f.fields["command_id"]) == |old(messages)|)
      ensures outcome.Relayed? || outcome == NotRelayed ==>
        var rec := messages[FirstMatch(old(messages), f.fields["command_id"])];
        && outcome == (if rec.origin in clients then Relayed(RaisedBy(send)) else NotRelayed)
        && sent == old(sent) + (if rec.origin in clients then Sends(clients[rec.origin].channel, RecordFrame(rec), send) else [])
      ensures outcome == Unmatched ==> old(sent) <= sent && |sent| <= |old(sent)| + 1
    {
      if "command_id" !in f.fields || "response" !in f.fields {
        return FieldMissing;
      }
      var commandId, response := f.fields["command_id"], f.fields["response"];
      var i := 0;
      var found := false;
      while i < |messages|
        invariant 0 <= i <= |messages|
        invariant messages == old(messages)
        invariant forall j :: 0 <= j < i ==> messages[j].id != commandId
        decreases |messages| - i
      {
        if messages[i].id == commandId {
          messages := messages[i := messages[i].(response := Some(response), responseTime := Some(now))];
          found := true;
          break;
        }
        i := i + 1;
      }
      if !found {
        return Unmatched;
      }
      var msg := messages[i];
      if msg.origin in clients {
        var raised := Send(clients[msg.origin].channel, RecordFrame(msg), send);
        outcome := Relayed(raised);
      } else {
        outcome := NotRelayed;
      }
    }

    /** `send_client_list`: send the snapshot, wrapped as an `infected_list` frame; a failed send is swallowed. */
    method SendClientList(ws: Channel, send: SendOutcome)
      modifies this`sent
      ensures sent == old(sent) + Sends(ws, InfectedList(Snapshot(clients)), send)
    {
      var _ := Send(ws, InfectedList(Snapshot(clients)), send);
    }

    /** `cleanup_old_messages`: keep the records issued within the last day, in place and in order. */
    method CleanupOldMessages(now: Time)
      modifies this`messages
      ensures messages == Retained(old(messages), now - RetentionPeriod)
    {
      messages := Retained(messages, now - RetentionPeriod);
    }

    /**
     * One turn of `handle_controller_messages`. A close marks this
     * controller disconnected, and so does a closed target channel met
     * while dispatching a command (the ConnectionClosed propagates to this
     * loop); any other error ends the session with nothing marked.
     */
    method ControllerStep(ws: Channel, id: Id, input: Input) returns (next: Next)
      modifies this
      ensures clients.Keys == old(clients).Keys
      ensures old(messages) <= messages && |messages| <= |old(messages)| + 1
      ensures old(sent) <= sent
      ensures input.event == Closed ==>
        next == Stop && clients == MarkDisconnected(old(clients), id, input.now)
        && messages == old(messages) && sent == old(sent)
      ensures input.event == Malformed ==>
        next == Stop && clients == old(clients) && messages == old(messages) && sent == old(sent)
      ensures input.event.Received? && Field(input.event.frame, "type") == Some("request_client_list") ==>
        next == Continue && clients == old(clients) && messages == old(messages)
        && sent == old(sent) + Sends(ws, InfectedList(Snapshot(old(clients))), input.send)
      ensures input.event.Received? && Field(input.event.frame, "type") !in {Some("command"), Some("request_client_list")} ==>
        next == Continue && clients == old(clients) && messages == old(messages) && sent == old(sent)
      ensures input.event.Received? && Field(input.event.frame, "type") == Some("command") ==>
        var f := input.event.frame;
        var raised := if !HasCommandFields(f) then RaisedOther
                      else if IsAgent(old(clients), f.fields["target"]) then RaisedBy(input.send) else NoRaise;
        && next == (if raised == NoRaise then Continue else Stop)
        && clients == (if raised == RaisedClosed then MarkDisconnected(old(clients), id, input.now) else old(clients))
        && (if HasCommandFields(f) && IsAgent(old(clients), f.fields["target"]) then
              var rec := CommandRecord(f, id, input.now, input.freshId);
              && messages == old(messages) + (if input.send == Delivered then [rec] else [])
              && sent == old(sent) + Sends(old(clients)[rec.target].channel, RecordFrame(rec), input.send)
            else messages == old(messages) && sent == old(sent))
    {
      match input.event
      case Closed =>
        clients := MarkDisconnected(clients, id, input.now);
        next := Stop;
      case Malformed =>
        next := Stop;
      case Received(f) =>
        var kind := Field(f, "type");
        if kind == Some("command") {
          var raised := HandleCommand(f, id, input.now, input.freshId, input.send);
          if raised == RaisedClosed {
            clients := MarkDisconnected(clients, id, input.now);
          }
          next := if raised == NoRaise then Continue else Stop;
        } else if kind == Some("request_client_list") {
          SendClientList(ws, input.send);
          next := Continue;
        } else {
          next := Continue;
        }
    }

    /**
     * One turn of `handle_infected_messages`: only `response` frames are
     * routed. A close marks this peer disconnected, and so does a closed
     * origin channel met while relaying the response.
     */
    method InfectedStep(ws: Channel, id: Id, input: Input) returns (next: Next)
      modifies this
      ensures clients.Keys == old(clients).Keys
      ensures SameCommands(old(messages), messages)
      ensures old(sent) <= sent
      ensures input.event == Closed ==>
        next == Stop && clients == MarkDisconnected(old(clients), id, input.now)
        && messages == old(messages) && sent == old(sent)
      ensures input.event == Malformed ==>
        next == Stop && clients == old(clients) && messages == old(messages) && sent == old(sent)
      ensures input.event.Received? && Field(input.event.frame, "type") != Some("response") ==>
        next == Continue && clients == old(clients) && messages == old(messages) && sent == old(sent)
      ensures input.event.Received? && Field(input.event.frame, "type") == Some("response") ==>
        var f := input.event.frame;
        if !("command_id" in f.fields && "response" in f.fields) then
          next == Stop && clients == old(clients) && messages == old(messages) && sent == old(sent)
        else
          var k := FirstMatch(old(messages), f.fields["command_id"]);
          && messages == Correlate(old(messages), f.fields["command_id"], f.fields["response"], input.now)
          && (k == |old(messages)| ==> next == Unknown && clients == old(clients))
          && (k < |old(messages)| ==>
                var rec := messages[k];
                var raised := if rec.origin in old(clients) then RaisedBy(input.send) else NoRaise;
                && sent == old(sent) + (if rec.origin in old(clients)
                                        then Sends(old(clients)[rec.origin].channel, RecordFrame(rec), input.send) else [])
                && next == (if raised == NoRaise then Continue else Stop)
                && clients == (if raised == RaisedClosed then MarkDisconnected(old(clients), id, input.now) else old(clients)))
    {
      match input.event
      case Closed =>
        clients := MarkDisconnected(clients, id, input.now);
        next := Stop;
      case Malformed =>
        next := Stop;
      case Received(f) =>
        if Field(f, "type") == Some("response") {
          var outcome := HandleResponse(f, input.now, input.send);
          if outcome != FieldMissing {
            CorrelateKeepsCommands(old(messages), f.fields["command_id"], f.fields["response"], input.now);
          }
          match outcome
          case FieldMissing => next := Stop;
          case Unmatched => next := Unknown;
          case NotRelayed => next := Continue;
          case Relayed(raised) =>
            if raised == RaisedClosed {
              clients := MarkDisconnected(clients, id, input.now);
            }
            next := if raised == NoRaise then Continue else Stop;
        } else {
          next := Continue;
        }
    }

    /**
     * `handle_controller_messages` over the frames received so far: handle
     * them in turn until one ends the session. A controller session never
     * adds or removes a peer, and only appends to `messages`.
     */
    method HandleControllerMessages(ws: Channel, id: Id, inputs: seq<Input>) returns (handled: nat)
      modifies this
      ensures handled <= |inputs|
      ensures forall j :: 0 <= j < handled - 1 ==> inputs[j].event.Received?
      ensures clients.Keys == old(clients).Keys
      ensures old(messages) <= messages
      ensures old(sent) <= sent
    {
      handled := 0;
      while handled < |inputs|
        invariant handled <= |inputs|
        invariant forall j :: 0 <= j < handled ==> inputs[j].event.Received?
        invariant clients.Keys == old(clients).Keys
        invariant old(messages) <= messages
        invariant old(sent) <= sent
      {
        var next := ControllerStep(ws, id, inputs[handled]);
        handled := handled + 1;
        if next != Continue {
          break;
        }
      }
    }

    /**
     * `handle_infected_messages` over the frames received so far. An
     * infected session never adds or removes a peer, and never adds,
     * removes or reorders command records: it only fills in responses.
     * The modelled run also ends at a step whose outcome is `Unknown` (an
     * unmatched response), where the source, for a non-empty list, relays
     * the last record and goes on.
     */
    method HandleInfectedMessages(ws: Channel, id: Id, inputs: seq<Input>) returns (handled: nat)
      modifies this
      ensures handled <= |inputs|
      ensures forall j :: 0 <= j < handled - 1 ==> inputs[j].event.Received?
      ensures clients.Keys == old(clients).Keys
      ensures SameCommands(old(messages), messages)
      ensures old(sent) <= sent
    {
      handled := 0;
      while handled < |inputs|
        invariant handled <= |inputs|
        invariant forall j :: 0 <= j < handled ==> inputs[j].event.Received?
        invariant clients.Keys == old(clients).Keys
        invariant SameCommands(old(messages), messages)
        invariant old(sent) <= sent
      {
        var next := InfectedStep(ws, id, inputs[handled]);
        handled := handled + 1;
        if next != Continue {
          break;
        }
      }
    }

    /** `relay_messages`: a controller or an infected session by role; any other role ends at once. */
    method RelayMessages(ws: Channel, id: Id, role: string, inputs: seq<Input>) returns (handled: nat)
      modifies this
      ensures handled <= |inputs|
      ensures clients.Keys == old(clients).Keys
      ensures role == "infected" ==> SameCommands(old(messages), messages)
      ensures role != "infected" ==> old(messages) <= messages
      ensures old(sent) <= sent
      ensures role != "controller" && role != "infected" ==>
        handled == 0 && clients == old(clients) && messages == old(messages) && sent == old(sent)
    {
      if role == "controller" {
        handled := HandleControllerMessages(ws, id, inputs);
      } else if role == "infected" {
        handled := HandleInfectedMessages(ws, id, inputs);
      } else {
        handled := 0;
      }
    }
  }
}
