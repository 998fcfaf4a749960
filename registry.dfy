/**
 * `WebSocketManager` (src/services/monitoring/websocket.py): the registry of
 * open client connections per user, personal sends that drop the connections
 * whose send raised, broadcast over a snapshot of the users, and one step of
 * the Redis subscriber loop.
 *
 * A connection handle is a value with identity; whether `send_json` raises on
 * it is the oracle `dead` (the set of handles whose send fails). The handles a
 * message reached are returned to the caller.
 */
module Registry {
  import opened Common

  /** A FastAPI `WebSocket` handle; only its identity matters here. */
  datatype Socket = Socket(id: nat)

  type UserId = string

  /** The decoded payload of a bus message, forwarded as is. */
  datatype Json =
    | JNull
    | JBool(b: bool)
    | JNumber(n: int)
    | JString(s: string)
    | JArray(items: seq<Json>)
    | JObject(fields: seq<(string, Json)>)

  type Registry = map<UserId, set<Socket>>

  /** A user is a key exactly while it has at least one open connection. */
  ghost predicate NoEmptyEntries(ac: Registry)
  {
    forall u :: u in ac ==> ac[u] != {}
  }

  /** The connections of `u`, none when `u` is not a key. */
  function HandlesOf(ac: Registry, u: UserId): set<Socket>
  {
    if u in ac then ac[u] else {}
  }

  /** The registry after `connect(ws, u)`. */
  function Connected(ac: Registry, u: UserId, ws: Socket): Registry
  {
    ac[u := HandlesOf(ac, u) + {ws}]
  }

  /**
   * The registry after the connections `gone` of `u` are discarded: the key
   * goes away with its last connection. `disconnect(ws, u)` is the case
   * `gone == {ws}`.
   */
  function Pruned(ac: Registry, u: UserId, gone: set<Socket>): Registry
  {
    if u !in ac then ac
    else if ac[u] - gone == {} then ac - {u}
    else ac[u := ac[u] - gone]
  }

  /** The registry after `disconnect(ws, u)`. */
  function Disconnected(ac: Registry, u: UserId, ws: Socket): Registry
  {
    Pruned(ac, u, {ws})
  }

  /** After `connect`, `u` is a key holding `ws` besides its earlier connections; no other user changes. */
  lemma ConnectRegisters(ac: Registry, u: UserId, ws: Socket)
    requires NoEmptyEntries(ac)
    ensures var r := Connected(ac, u, ws);
            && u in r && r[u] == HandlesOf(ac, u) + {ws}
            && (forall v :: v != u ==> (v in r <==> v in ac) && HandlesOf(r, v) == HandlesOf(ac, v))
            && NoEmptyEntries(r)
  {
  }

  /** Connecting the same handle twice leaves a single entry for it. */
  lemma ConnectIdempotent(ac: Registry, u: UserId, ws: Socket)
    ensures Connected(Connected(ac, u, ws), u, ws) == Connected(ac, u, ws)
  {
    assert HandlesOf(Connected(ac, u, ws), u) + {ws} == HandlesOf(ac, u) + {ws};
  }

  /**
   * After discarding `gone`, the user keeps exactly its other connections, and
   * is a key iff it has some left; no other user changes.
   */
  lemma PrunedSpec(ac: Registry, u: UserId, gone: set<Socket>)
    requires NoEmptyEntries(ac)
    ensures var r := Pruned(ac, u, gone);
            && HandlesOf(r, u) == HandlesOf(ac, u) - gone
            && (u in r <==> HandlesOf(ac, u) - gone != {})
            && (forall v :: v != u ==> (v in r <==> v in ac) && HandlesOf(r, v) == HandlesOf(ac, v))
            && NoEmptyEntries(r)
  {
  }

  /** Disconnecting a user that is not a key, or a handle the user does not hold, changes nothing. */
  lemma DisconnectUnknownIsNoOp(ac: Registry, u: UserId, ws: Socket)
    requires NoEmptyEntries(ac)
    requires ws !in HandlesOf(ac, u)
    ensures Disconnected(ac, u, ws) == ac
  {
    if u in ac {
      assert ac[u] - {ws} == ac[u];
    }
  }

  /** Disconnecting a handle just connected restores the registry it was connected to. */
  lemma DisconnectUndoesConnect(ac: Registry, u: UserId, ws: Socket)
    requires NoEmptyEntries(ac)
    requires ws !in HandlesOf(ac, u)
    ensures Disconnected(Connected(ac, u, ws), u, ws) == ac
  {
    assert (HandlesOf(ac, u) + {ws}) - {ws} == HandlesOf(ac, u);
  }

  /** Discarding one more handle after a set of them is discarding the larger set. */
  lemma {:induction false} DisconnectAfterPrune(ac: Registry, u: UserId, gone: set<Socket>, ws: Socket)
    requires NoEmptyEntries(ac)
    ensures Disconnected(Pruned(ac, u, gone), u, ws) == Pruned(ac, u, gone + {ws})
  {
    if u in ac {
      assert ac[u] - gone - {ws} == ac[u] - (gone + {ws});
      if ac[u] - gone == {} {
        assert ac[u] - (gone + {ws}) == {};
      }
    }
  }

  /** Discarding nothing changes nothing. */
  lemma PruneNothing(ac: Registry, u: UserId)
    requires NoEmptyEntries(ac)
    ensures Pruned(ac, u, {}) == ac
  {
    if u in ac {
      assert ac[u] - {} == ac[u];
    }
  }

  /** Every (user, connection) pair of the registry. */
  function Handles(ac: Registry): set<(UserId, Socket)>
  {
    set u, ws | u in ac && ws in ac[u] :: (u, ws)
  }

  /** The pairs a broadcast reaches: the connections of the users `users` whose send does not fail. */
  function Deliveries(ac: Registry, users: set<UserId>, dead: set<Socket>): set<(UserId, Socket)>
  {
    set u, ws | u in users && u in ac && ws in ac[u] && ws !in dead :: (u, ws)
  }

  /** The pairs for the connections `reached` of `u`. */
  function PairsOf(u: UserId, reached: set<Socket>): set<(UserId, Socket)>
  {
    set ws | ws in reached :: (u, ws)
  }

  /** Sending to one more user adds that user's live connections to the deliveries. */
  lemma DeliveriesStep(ac: Registry, users: set<UserId>, dead: set<Socket>, u: UserId)
    requires u in ac
    ensures Deliveries(ac, users + {u}, dead) == Deliveries(ac, users, dead) + PairsOf(u, ac[u] - dead)
  {
    var left := Deliveries(ac, users + {u}, dead);
    var right := Deliveries(ac, users, dead) + PairsOf(u, ac[u] - dead);
    forall p | p in left ensures p in right {
      if p.0 == u {
        assert p.1 in ac[u] - dead;
      }
    }
  }

  /**
   * The registry after the users `users` have each been sent a message: each
   * keeps its live connections, and is dropped when none is left.
   */
  function PrunedUsers(ac: Registry, users: set<UserId>, dead: set<Socket>): Registry
  {
    map u | u in ac && (u in users ==> ac[u] - dead != {}) :: if u in users then ac[u] - dead else ac[u]
  }

  /** After a broadcast, a user stays iff some connection of it is live, keeping exactly the live ones. */
  lemma PrunedUsersSpec(ac: Registry, dead: set<Socket>)
    requires NoEmptyEntries(ac)
    ensures var r := PrunedUsers(ac, ac.Keys, dead);
            && (forall u :: u in r <==> u in ac && ac[u] - dead != {})
            && (forall u :: u in r ==> r[u] == ac[u] - dead)
            && NoEmptyEntries(r)
  {
  }

  /** Sending to one more user prunes that user's failed connections and leaves the others alone. */
  lemma PrunedUsersStep(ac: Registry, users: set<UserId>, dead: set<Socket>, u: UserId)
    requires NoEmptyEntries(ac)
    requires u !in users && u in ac
    ensures u in PrunedUsers(ac, users, dead)
    ensures PrunedUsers(ac, users, dead)[u] == ac[u]
    ensures Pruned(PrunedUsers(ac, users, dead), u, ac[u] * dead) == PrunedUsers(ac, users + {u}, dead)
  {
    var r := PrunedUsers(ac, users, dead);
    assert ac[u] - ac[u] * dead == ac[u] - dead;
    var left := Pruned(r, u, ac[u] * dead);
    var right := PrunedUsers(ac, users + {u}, dead);
    assert forall v :: v in left <==> v in right;
  }

  /** With no failing connection, a broadcast reaches every connection and drops nobody. */
  lemma NoFailureReachesAll(ac: Registry)
    requires NoEmptyEntries(ac)
    ensures Deliveries(ac, ac.Keys, {}) == Handles(ac)
    ensures PrunedUsers(ac, ac.Keys, {}) == ac
  {
    var r := PrunedUsers(ac, ac.Keys, {});
    assert forall u :: u in ac ==> ac[u] - {} == ac[u];
    assert r.Keys == ac.Keys;
  }

  /** A failing connection of one user costs nothing to another: its live connections are still reached and kept. */
  lemma DeadConnectionIsIsolated(ac: Registry, dead: set<Socket>, v: UserId, ws: Socket)
    requires NoEmptyEntries(ac)
    requires v in ac && ws in ac[v] && ws !in dead
    ensures (v, ws) in Deliveries(ac, ac.Keys, dead)
    ensures v in PrunedUsers(ac, ac.Keys, dead) && ws in PrunedUsers(ac, ac.Keys, dead)[v]
  {
    assert ws in ac[v] - dead;
  }

  /** The multiset of a union of disjoint sets is the sum of their multisets. */
  lemma MultisetOfDisjointUnion<T>(a: set<T>, b: set<T>)
    requires a * b == {}
    ensures multiset(a + b) == multiset(a) + multiset(b)
  {
    forall x ensures multiset(a + b)[x] == (multiset(a) + multiset(b))[x] {
      assert x !in a * b;
    }
  }

  /** The pairs for the connections of `u` grow by one pair per added connection. */
  lemma PairsOfAdd(u: UserId, reached: set<Socket>, ws: Socket)
    ensures PairsOf(u, reached + {ws}) == PairsOf(u, reached) + {(u, ws)}
    ensures ws !in reached ==> PairsOf(u, reached) * {(u, ws)} == {}
  {
    var left := PairsOf(u, reached + {ws});
    var right := PairsOf(u, reached) + {(u, ws)};
    forall p | p in left ensures p in right {
    }
  }

  /** Logging a send to a connection not sent to before keeps the log one entry per connection sent to. */
  lemma TriedStep(tried: seq<(UserId, Socket)>, u: UserId, done: set<Socket>, ws: Socket)
    requires ws !in done
    requires multiset(tried) == multiset(PairsOf(u, done))
    ensures multiset(tried + [(u, ws)]) == multiset(PairsOf(u, done + {ws}))
  {
    PairsOfAdd(u, done, ws);
    MultisetOfDisjointUnion(PairsOf(u, done), {(u, ws)});
  }

  /** Two users, A with two connections and B with one: three (user, connection) pairs, each to be sent once. */
  lemma FanOutExample()
    ensures var ac := map["A" := {Socket(1), Socket(2)}, "B" := {Socket(3)}];
            |multiset(Handles(ac))| == 3 && Deliveries(ac, ac.Keys, {}) == Handles(ac)
  {
    var ac := map["A" := {Socket(1), Socket(2)}, "B" := {Socket(3)}];
    var h := Handles(ac);
    assert ("A", Socket(1)) in h && ("A", Socket(2)) in h && ("B", Socket(3)) in h;
    assert h == {("A", Socket(1)), ("A", Socket(2)), ("B", Socket(3))};
    NoFailureReachesAll(ac);
  }

  /**
   * Sending to one more user of a broadcast adds one send per connection of
   * that user to the sends made so far, one per connection of the users before.
   */
  lemma SendsStep(ac: Registry, users: set<UserId>, u: UserId,
                  base: seq<(UserId, Socket)>, before: seq<(UserId, Socket)>, after: seq<(UserId, Socket)>)
    requires u in ac && u !in users
    requires multiset(before) == multiset(base) + multiset(Deliveries(ac, users, {}))
    requires multiset(after) == multiset(before) + multiset(PairsOf(u, ac[u]))
    ensures multiset(after) == multiset(base) + multiset(Deliveries(ac, users + {u}, {}))
  {
    DeliveriesStep(ac, users, {}, u);
    assert ac[u] - {} == ac[u];
    MultisetOfDisjointUnion(Deliveries(ac, users, {}), PairsOf(u, ac[u]));
  }

  /** A Redis pub/sub message as `get_message` returns it. */
  datatype PubSubMessage = PubSubMessage(kind: string, data: string)

  class WebSocketManager {
    var activeConnections: Registry
    /** `redis_client` is set. */
    var hasRedis: bool
    /** Every `send_json` attempted, as (user, connection), in order. */
    ghost var sends: seq<(UserId, Socket)>

    ghost predicate Valid()
      reads this
    {
      NoEmptyEntries(activeConnections)
    }

    constructor ()
      ensures Valid() && activeConnections == map[] && !hasRedis && sends == []
    {
      activeConnections := map[];
      hasRedis := false;
      sends := [];
    }

    /** `initialize`: `clientCreated` is whether creating the Redis client succeeded. */
    method Initialize(clientCreated: bool)
      modifies this`hasRedis
      ensures hasRedis == (old(hasRedis) || clientCreated)
    {
      if clientCreated {
        hasRedis := true;
      }
    }

    /** `connect`, after `websocket.accept()`. */
    method Connect(ws: Socket, u: UserId)
      requires Valid()
      modifies this`activeConnections
      ensures Valid()
      ensures activeConnections == Connected(old(activeConnections), u, ws)
    {
      if u !in activeConnections {
        activeConnections := activeConnections[u := {}];
      }
      activeConnections := activeConnections[u := activeConnections[u] + {ws}];
    }

    /** `disconnect`. */
    method Disconnect(ws: Socket, u: UserId)
      requires Valid()
      modifies this`activeConnections
      ensures Valid()
      ensures activeConnections == Disconnected(old(activeConnections), u, ws)
    {
      PrunedSpec(activeConnections, u, {ws});
      if u in activeConnections {
        activeConnections := activeConnections[u := activeConnections[u] - {ws}];
        if activeConnections[u] == {} {
          activeConnections := activeConnections - {u};
        }
      }
    }

    /**
     * `send_personal_message`: try every connection of `u`, collecting those
     * whose send raised, then disconnect each of them. `delivered` holds the
     * connections the message reached.
     */
    method SendPersonalMessage(message: Json, u: UserId, dead: set<Socket>) returns (delivered: set<Socket>)
      requires Valid()
      modifies this`activeConnections, this`sends
      ensures Valid()
      ensures multiset(sends) == multiset(old(sends)) + multiset(PairsOf(u, HandlesOf(old(activeConnections), u)))
      ensures delivered == HandlesOf(old(activeConnections), u) - dead
      ensures activeConnections == Pruned(old(activeConnections), u, HandlesOf(old(activeConnections), u) * dead)
    {
      delivered := {};
      if u !in activeConnections {
        PruneNothing(activeConnections, u);
        assert PairsOf(u, {}) == {};
        return;
      }
      var failed;
      ghost var tried;
      delivered, failed, tried := TrySends(message, u, activeConnections[u], dead);
      sends := sends + tried;
      DisconnectAll(failed, u);
    }

    /**
     * The first loop of `send_personal_message`: one `send_json` per connection
     * in `conns`, collecting the connections it reached and those whose send
     * raised; `tried` lists the sends made.
     */
    method TrySends(message: Json, u: UserId, conns: set<Socket>, dead: set<Socket>)
      returns (delivered: set<Socket>, failed: set<Socket>, ghost tried: seq<(UserId, Socket)>)
      ensures delivered == conns - dead && failed == conns * dead
      ensures multiset(tried) == multiset(PairsOf(u, conns))
    {
      tried := [];
      var pending := conns;
      delivered, failed := {}, {};
      while pending != {}
        invariant pending <= conns
        invariant multiset(tried) == multiset(PairsOf(u, conns - pending))
        invariant delivered == (conns - pending) - dead
        invariant failed == (conns - pending) * dead
        decreases |pending|
      {
        var ws :| ws in pending;
        TriedStep(tried, u, conns - pending, ws);
        assert (conns - pending) + {ws} == conns - (pending - {ws});
        tried := tried + [(u, ws)];
        ghost var done := (conns - pending) + {ws};
        if ws in dead {
          assert done * dead == failed + {ws} && done - dead == delivered;
          failed := failed + {ws};
        } else {
          assert done - dead == delivered + {ws} && done * dead == failed;
          delivered := delivered + {ws};
        }
        pending := pending - {ws};
      }
      assert conns - pending == conns;
    }

    /** The second loop of `send_personal_message`: `disconnect` each handle of `sockets` from `u`. */
    method DisconnectAll(sockets: set<Socket>, u: UserId)
      requires Valid()
      modifies this`activeConnections
      ensures Valid()
      ensures activeConnections == Pruned(old(activeConnections), u, sockets)
    {
      ghost var ac0 := activeConnections;
      var toClose := sockets;
      ghost var closed: set<Socket> := {};
      PruneNothing(ac0, u);
      while toClose != {}
        invariant toClose <= sockets
        invariant closed == sockets - toClose
        invariant activeConnections == Pruned(ac0, u, closed)
        invariant Valid()
        decreases |toClose|
      {
        var ws :| ws in toClose;
        DisconnectAfterPrune(ac0, u, closed, ws);
        Disconnect(ws, u);
        closed := closed + {ws};
        toClose := toClose - {ws};
      }
      assert closed == sockets;
    }

    /**
     * `broadcast`: send to every user registered when it starts, over a
     * snapshot of the keys. Returns the (user, connection) pairs reached.
     */
    method Broadcast(message: Json, dead: set<Socket>) returns (delivered: set<(UserId, Socket)>)
      requires Valid()
      modifies this`activeConnections, this`sends
      ensures Valid()
      ensures multiset(sends) == multiset(old(sends)) + multiset(Handles(old(activeConnections)))
      ensures delivered == Deliveries(old(activeConnections), old(activeConnections).Keys, dead)
      ensures activeConnections == PrunedUsers(old(activeConnections), old(activeConnections).Keys, dead)
    {
      ghost var ac0 := activeConnections;
      ghost var sends0 := sends;
      var users := activeConnections.Keys;
      ghost var visited: set<UserId> := {};
      delivered := {};
      assert PrunedUsers(ac0, {}, dead) == ac0;
      assert Deliveries(ac0, {}, dead) == {};
      assert Deliveries(ac0, {}, {}) == {};
      while users != {}
        invariant users <= ac0.Keys
        invariant visited == ac0.Keys - users
        invariant activeConnections == PrunedUsers(ac0, visited, dead)
        invariant delivered == Deliveries(ac0, visited, dead)
        invariant multiset(sends) == multiset(sends0) + multiset(Deliveries(ac0, visited, {}))
        invariant Valid()
        decreases |users|
      {
        var u :| u in users;
        PrunedUsersStep(ac0, visited, dead, u);
        DeliveriesStep(ac0, visited, dead, u);
        ghost var before := sends;
        var reached := SendPersonalMessage(message, u, dead);
        SendsStep(ac0, visited, u, sends0, before, sends);
        delivered := delivered + PairsOf(u, reached);
        assert visited + {u} == ac0.Keys - (users - {u});
        visited := visited + {u};
        users := users - {u};
      }
      assert visited == ac0.Keys;
      NoFailureReachesAll(ac0);
    }

    /**
     * One step of `subscribe_to_updates`: a message of type "message" whose
     * data decodes as JSON is broadcast; anything else (no message, another
     * type, a payload `json.loads` rejects) is skipped.
     */
    method SubscriberStep(m: Option<PubSubMessage>, decode: string -> Option<Json>, dead: set<Socket>)
      returns (broadcast: bool, delivered: set<(UserId, Socket)>)
      requires Valid()
      modifies this`activeConnections, this`sends
      ensures Valid()
      ensures broadcast <==> m.Some? && m.value.kind == "message" && decode(m.value.data).Some?
      ensures !broadcast ==> delivered == {} && activeConnections == old(activeConnections) && sends == old(sends)
      ensures broadcast ==>
                multiset(sends) == multiset(old(sends)) + multiset(Handles(old(activeConnections))) &&
                delivered == Deliveries(old(activeConnections), old(activeConnections).Keys, dead) &&
                activeConnections == PrunedUsers(old(activeConnections), old(activeConnections).Keys, dead)
    {
      broadcast, delivered := false, {};
      if m.Some? && m.value.kind == "message" {
        var data := decode(m.value.data);
        if data.Some? {
          delivered := Broadcast(data.value, dead);
          broadcast := true;
        }
      }
    }
  }
}
