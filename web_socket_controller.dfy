/**
 * The WebSocket session controller: a registry of connected clients, the
 * dispatch of inbound text frames by kind, and the fan-out of envelopes to
 * the registered sockets.
 *
 * Sockets are opaque handles compared by identity (`Socket`). Every
 * `ws.send` becomes one `Send` entry appended to the controller's `outbox`.
 * The one-second delayed delivery of a chat message is a queued `Pending`
 * closure that a separate `Deliver` step runs later, against the registry as
 * it is at that time. Fresh UUIDs, the current date and the random state
 * choice are inputs.
 */
module WebSocketController {
  import opened Wrappers

  /** A WebSocket handle, compared by reference identity. */
  type Socket = nat
  /** A UUID, kept opaque. */
  type Uuid = nat
  /** A point in time, kept opaque. */
  type Date = int

  /** The controller's own three envelope kinds. */
  datatype MessageKind = Connection | Close | Message

  /** Delivery state carried by an envelope. */
  datatype State = Progress | Received | Error

  /** The controller's envelope (its `Message` struct). */
  datatype Envelope = Envelope(
    id: Uuid,
    kind: MessageKind,
    userName: string,
    dispatchDate: Date,
    message: string,
    state: State)

  /** A registered session; Swift equality and hashing look at `userName` only. */
  datatype Client = Client(ws: Socket, userName: string)

  /** One `ws.send` of an envelope to a socket. */
  datatype Send = Send(ws: Socket, env: Envelope)

  /** A scheduled delayed delivery: the sender's socket and the envelope. */
  datatype Pending = Pending(sender: Socket, env: Envelope)

  /**
   * An inbound text frame as the JSON decoder sees it: the string in its
   * `kind` field (if any), and the full envelope when the whole frame
   * decodes as one.
   */
  datatype Frame = Frame(kindField: Option<string>, body: Option<Envelope>)

  // ---------------------------------------------------------------------
  // Kind parsing

  /**
   * Decoding the kind-only probe: only the three raw values of the
   * controller's enum parse; anything else, "error" included, is a decode
   * failure.
   */
  function DecodeKind(kindField: Option<string>): (r: Option<MessageKind>)
    ensures r.Some? <==> kindField.Some? && kindField.value in {"connection", "close", "message"}
    ensures r == Some(Connection) ==> kindField == Some("connection")
    ensures r == Some(Close) ==> kindField == Some("close")
    ensures r == Some(Message) ==> kindField == Some("message")
  {
    match kindField
    case None => None
    case Some(s) =>
      if s == "connection" then Some(Connection)
      else if s == "close" then Some(Close)
      else if s == "message" then Some(Message)
      else None
  }

  // ---------------------------------------------------------------------
  // The registry: a set of clients under name-only equality

  /** No two registered clients share a user name. */
  ghost predicate UniqueNames(s: set<Client>)
  {
    forall a, b :: a in s && b in s && a.userName == b.userName ==> a == b
  }

  /** The user names present in a registry. */
  function Names(s: set<Client>): set<string>
  {
    set c | c in s :: c.userName
  }

  /** The registered clients whose socket is `ws`. */
  function Holders(s: set<Client>, ws: Socket): set<Client>
  {
    set c | c in s && c.ws == ws
  }

  /**
   * `Set.insert` under name-only equality: when a client with the same name
   * is already present the set keeps that one; otherwise `c` is added.
   */
  function InsertByName(s: set<Client>, c: Client): (r: set<Client>)
    ensures UniqueNames(s) ==> UniqueNames(r)
    ensures Names(r) == Names(s) + {c.userName}
    ensures c.userName in Names(s) ==> r == s
    ensures c.userName !in Names(s) ==> c in r && c !in s && r - {c} == s
  {
    if c.userName in Names(s) then s else s + {c}
  }

  /**
   * `Set.remove` under name-only equality: every client named `key` goes,
   * every other client stays.
   */
  function RemoveByName(s: set<Client>, key: string): (r: set<Client>)
    ensures r <= s
    ensures Names(r) == Names(s) - {key}
    ensures forall c :: c in s && c.userName != key ==> c in r
    ensures UniqueNames(s) ==> UniqueNames(r)
  {
    set c | c in s && c.userName != key
  }

  /** Removing the name of a registered client removes exactly that client. */
  lemma RemoveByNameUnique(s: set<Client>, c: Client)
    requires UniqueNames(s) && c in s
    ensures RemoveByName(s, c.userName) == s - {c}
    ensures |RemoveByName(s, c.userName)| == |s| - 1
  {
  }

  /** Registering a sequence of connections one after another. */
  function RegisterAll(s: set<Client>, cs: seq<Client>): set<Client>
    decreases cs
  {
    if cs == [] then s else RegisterAll(InsertByName(s, cs[0]), cs[1..])
  }

  /**
   * Connections with pairwise distinct names, none already registered, all
   * succeed: the registry grows by exactly one client per connection.
   */
  lemma {:induction false} RegisterAllFresh(s: set<Client>, cs: seq<Client>)
    requires forall i, j :: 0 <= i < j < |cs| ==> cs[i].userName != cs[j].userName
    requires forall i :: 0 <= i < |cs| ==> cs[i].userName !in Names(s)
    ensures |RegisterAll(s, cs)| == |s| + |cs|
    ensures forall i :: 0 <= i < |cs| ==> cs[i] in RegisterAll(s, cs)
    decreases cs
  {
    if cs != [] {
      var s' := InsertByName(s, cs[0]);
      assert s' == s + {cs[0]} && cs[0] !in s;
      forall i | 0 <= i < |cs[1..]| ensures cs[1..][i].userName !in Names(s') {
        assert cs[1..][i] == cs[i + 1];
      }
      RegisterAllFresh(s', cs[1..]);
      assert cs[0] in RegisterAll(s', cs[1..]) by {
        RegisterAllKeeps(s', cs[1..], cs[0]);
      }
      forall i | 0 < i < |cs| ensures cs[i] in RegisterAll(s, cs) {
        assert cs[i] == cs[1..][i - 1];
      }
    }
  }

  /** Registration never drops a client that is already present. */
  lemma {:induction false} RegisterAllKeeps(s: set<Client>, cs: seq<Client>, c: Client)
    requires c in s
    ensures c in RegisterAll(s, cs)
    decreases cs
  {
    if cs != [] {
      RegisterAllKeeps(InsertByName(s, cs[0]), cs[1..], c);
    }
  }

  // ---------------------------------------------------------------------
  // Fan-out

  /** Every element of `order` is different from every other one. */
  ghost predicate Distinct(order: seq<Client>)
  {
    forall i, j :: 0 <= i < j < |order| ==> order[i] != order[j]
  }

  /** `order` lists every client of `s` exactly once (a set iteration order). */
  ghost predicate Enumerates(order: seq<Client>, s: set<Client>)
  {
    Distinct(order) && forall c :: c in s <==> c in order
  }

  /** The sends of one `forEach` over the clients, in the order visited. */
  function Fanout(order: seq<Client>, env: Envelope): seq<Send>
  {
    seq(|order|, i requires 0 <= i < |order| => Send(order[i].ws, env))
  }

  /** How many of `sends` go to socket `ws`. */
  function CountTo(sends: seq<Send>, ws: Socket): nat
  {
    if sends == [] then 0
    else (if sends[0].ws == ws then 1 else 0) + CountTo(sends[1..], ws)
  }

  /** A fan-out sends to a socket once per visited client holding it. */
  lemma {:induction false} FanoutCount(order: seq<Client>, env: Envelope, ws: Socket)
    requires Distinct(order)
    ensures CountTo(Fanout(order, env), ws) == |set c | c in order && c.ws == ws|
  {
    if order == [] {
      assert (set c | c in order && c.ws == ws) == {};
    } else {
      var rest := order[1..];
      assert Fanout(order, env)[1..] == Fanout(rest, env);
      assert Distinct(rest) by {
        forall i, j | 0 <= i < j < |rest| ensures rest[i] != rest[j] {
          assert rest[i] == order[i + 1] && rest[j] == order[j + 1];
        }
      }
      FanoutCount(rest, env, ws);
      var here := set c | c in order && c.ws == ws;
      var there := set c | c in rest && c.ws == ws;
      assert order[0] !in rest by {
        forall i | 0 <= i < |rest| ensures rest[i] != order[0] {
          assert rest[i] == order[i + 1];
        }
      }
      if order[0].ws == ws {
        assert here == there + {order[0]};
      } else {
        assert here == there;
      }
    }
  }

  /**
   * Broadcasting over a registry: every send carries the envelope, and each
   * socket receives it once per registered client holding that socket; a
   * socket held by no client receives nothing, one held by a single client
   * receives it exactly once.
   */
  lemma BroadcastReach(order: seq<Client>, s: set<Client>, env: Envelope, ws: Socket)
    requires Enumerates(order, s)
    ensures forall k :: 0 <= k < |Fanout(order, env)| ==> Fanout(order, env)[k].env == env
    ensures CountTo(Fanout(order, env), ws) == |Holders(s, ws)|
    ensures Holders(s, ws) == {} ==> CountTo(Fanout(order, env), ws) == 0
    ensures |Holders(s, ws)| == 1 ==> CountTo(Fanout(order, env), ws) == 1
  {
    FanoutCount(order, env, ws);
    assert (set c | c in order && c.ws == ws) == Holders(s, ws);
  }

  /**
   * Once the only client holding a socket is removed, no client holds that
   * socket any more, so a repeated close of it finds nothing.
   */
  lemma LastHolderGone(s: set<Client>, c: Client)
    requires UniqueNames(s) && c in s && |Holders(s, c.ws)| == 1
    ensures Holders(RemoveByName(s, c.userName), c.ws) == {}
  {
    RemoveByNameUnique(s, c);
    var h := Holders(s, c.ws);
    assert c in h;
    assert |h - {c}| == 0;
    assert h == {c};
    assert Holders(s - {c}, c.ws) == Holders(s, c.ws) - {c};
  }

  // ---------------------------------------------------------------------
  // Envelopes the controller synthesises

  /** The values `randomElement()` picks the delivery state from. */
  const StateChoices: seq<State> := [Error, Received, Received]

  /** The announcement of a newly connected user. */
  function ConnectionNotice(id: Uuid, userName: string, now: Date): Envelope
  {
    Envelope(id, Connection, userName, now, "", Received)
  }

  /** The announcement of a user who left. */
  function CloseNotice(id: Uuid, userName: string, now: Date): Envelope
  {
    Envelope(id, Close, userName, now, "", Received)
  }

  // ---------------------------------------------------------------------
  // The controller

  class Controller {
    /** The registry `wsClients`. */
    var clients: set<Client>
    /** Every `ws.send` so far, in order. */
    var outbox: seq<Send>
    /** Delayed deliveries scheduled and not yet run, oldest first. */
    var pending: seq<Pending>

    ghost predicate Valid()
      reads this
    {
      UniqueNames(clients)
    }

    constructor ()
      ensures Valid()
      ensures clients == {} && outbox == [] && pending == []
    {
      clients := {};
      outbox := [];
      pending := [];
    }

    /** The name of some registered client holding `ws`, if any. */
    method FirstClientWith(ws: Socket) returns (key: Option<string>)
      ensures key.Some? <==> Holders(clients, ws) != {}
      ensures key.Some? ==> Client(ws, key.value) in clients
    {
      if c :| c in clients && c.ws == ws {
        key := Some(c.userName);
        assert c in Holders(clients, ws);
      } else {
        key := None;
      }
    }

    /** `wsClients.forEach { $0.ws.send(env) }`: one send per registered client. */
    method SendToAll(env: Envelope) returns (ghost order: seq<Client>)
      modifies this`outbox
      ensures Enumerates(order, clients)
      ensures outbox == old(outbox) + Fanout(order, env)
    {
      var rest := clients;
      order := [];
      while rest != {}
        invariant rest <= clients
        invariant Enumerates(order, clients - rest)
        invariant outbox == old(outbox) + Fanout(order, env)
        decreases rest
      {
        var c :| c in rest;
        assert Fanout(order + [c], env) == Fanout(order, env) + [Send(c.ws, env)];
        outbox := outbox + [Send(c.ws, env)];
        order := order + [c];
        rest := rest - {c};
      }
    }

    /**
     * A `connection` frame: the sender is inserted under the announced name
     * (a name already present keeps its old socket), then every client of
     * the resulting registry is sent the connection notice. A body that does
     * not decode changes nothing.
     */
    method ConnectionHandler(ws: Socket, body: Option<Envelope>, id: Uuid, now: Date)
      returns (ghost order: seq<Client>)
      requires Valid()
      modifies this`clients, this`outbox
      ensures Valid()
      ensures body.None? ==> clients == old(clients) && outbox == old(outbox)
      ensures body.Some? ==>
        && clients == InsertByName(old(clients), Client(ws, body.value.userName))
        && Enumerates(order, clients)
        && outbox == old(outbox) + Fanout(order, ConnectionNotice(id, body.value.userName, now))
    {
      order := [];
      if body.None? {
        return;
      }
      var msg := body.value;
      clients := InsertByName(clients, Client(ws, msg.userName));
      order := SendToAll(ConnectionNotice(id, msg.userName, now));
    }

    /**
     * A `message` frame: the envelope gets the randomly drawn state and its
     * delivery is scheduled for later; nothing is sent now.
     */
    method MessageHandler(ws: Socket, body: Option<Envelope>, roll: nat)
      requires roll < |StateChoices|
      modifies this`pending
      ensures body.None? ==> pending == old(pending)
      ensures body.Some? ==>
        pending == old(pending) + [Pending(ws, body.value.(state := StateChoices[roll]))]
    {
      if body.None? {
        return;
      }
      var msg := body.value.(state := StateChoices[roll]);
      pending := pending + [Pending(ws, msg)];
    }

    /**
     * Runs the oldest scheduled delivery: an envelope in the error state goes
     * back to its sender only; any other goes to every client registered now.
     */
    method Deliver() returns (ghost order: seq<Client>)
      requires pending != []
      modifies this`pending, this`outbox
      ensures pending == old(pending)[1..]
      ensures old(pending)[0].env.state == Error ==>
        outbox == old(outbox) + [Send(old(pending)[0].sender, old(pending)[0].env)]
      ensures old(pending)[0].env.state != Error ==>
        Enumerates(order, clients) && outbox == old(outbox) + Fanout(order, old(pending)[0].env)
    {
      var job := pending[0];
      pending := pending[1..];
      order := [];
      match job.env.state {
        case Error =>
          outbox := outbox + [Send(job.sender, job.env)];
        case _ =>
          order := SendToAll(job.env);
      }
    }

    /**
     * Removes the client named `key` and tells every remaining client; when
     * no client has that name nothing changes and nothing is sent.
     */
    method CloseHandler(ws: Socket, key: string, id: Uuid, now: Date)
      returns (ghost order: seq<Client>)
      requires Valid()
      modifies this`clients, this`outbox
      ensures Valid()
      ensures key !in Names(old(clients)) ==> clients == old(clients) && outbox == old(outbox)
      ensures key in Names(old(clients)) ==>
        && clients == RemoveByName(old(clients), key)
        && key !in Names(clients)
        && Enumerates(order, clients)
        && outbox == old(outbox) + Fanout(order, CloseNotice(id, key, now))
    {
      order := [];
      if key !in Names(clients) {
        return;
      }
      clients := RemoveByName(clients, key);
      order := SendToAll(CloseNotice(id, key, now));
    }

    /**
     * The close hook of a socket: find a client holding it and run the close
     * handler for that client's name; a socket no client holds is ignored.
     */
    method OnClose(ws: Socket, id: Uuid, now: Date)
      returns (ghost removed: Option<Client>, ghost order: seq<Client>)
      requires Valid()
      modifies this`clients, this`outbox
      ensures Valid()
      ensures removed.None? <==> Holders(old(clients), ws) == {}
      ensures removed.None? ==> clients == old(clients) && outbox == old(outbox)
      ensures removed.Some? ==>
        && removed.value in Holders(old(clients), ws)
        && clients == old(clients) - {removed.value}
        && Enumerates(order, clients)
        && outbox == old(outbox) + Fanout(order, CloseNotice(id, removed.value.userName, now))
      ensures removed.Some? && |Holders(old(clients), ws)| == 1 ==> Holders(clients, ws) == {}
    {
      var key := FirstClientWith(ws);
      order := [];
      match key {
        case None =>
          removed := None;
        case Some(k) =>
          var c := Client(ws, k);
          assert c in Holders(clients, ws);
          removed := Some(c);
          RemoveByNameUnique(clients, c);
          if |Holders(clients, ws)| == 1 {
            LastHolderGone(clients, c);
          }
          assert k in Names(clients);
          order := CloseHandler(ws, k, id, now);
      }
    }

    /**
     * An inbound text frame: dispatch on the decoded kind. A frame whose kind
     * does not decode, and a `close` frame, change nothing.
     */
    method HandleText(ws: Socket, frame: Frame, id: Uuid, now: Date, roll: nat)
      returns (ghost order: seq<Client>)
      requires Valid()
      requires roll < |StateChoices|
      modifies this`clients, this`outbox, this`pending
      ensures Valid()
      ensures DecodeKind(frame.kindField).None? || DecodeKind(frame.kindField) == Some(Close) ==>
        clients == old(clients) && outbox == old(outbox) && pending == old(pending)
      ensures DecodeKind(frame.kindField) == Some(Connection) ==>
        && pending == old(pending)
        && (frame.body.None? ==> clients == old(clients) && outbox == old(outbox))
        && (frame.body.Some? ==>
          && clients == InsertByName(old(clients), Client(ws, frame.body.value.userName))
          && Enumerates(order, clients)
          && outbox == old(outbox) + Fanout(order, ConnectionNotice(id, frame.body.value.userName, now)))
      ensures DecodeKind(frame.kindField) == Some(Message) ==>
        && clients == old(clients) && outbox == old(outbox)
        && (frame.body.None? ==> pending == old(pending))
        && (frame.body.Some? ==>
          pending == old(pending) + [Pending(ws, frame.body.value.(state := StateChoices[roll]))])
    {
      order := [];
      match DecodeKind(frame.kindField) {
        case None =>
        case Some(Connection) =>
          order := ConnectionHandler(ws, frame.body, id, now);
        case Some(Message) =>
          MessageHandler(ws, frame.body, roll);
        case Some(Close) =>
      }
    }
  }
}
