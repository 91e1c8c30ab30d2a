/**
 * The notification stream registry: for each user, the open streams in the order they
 * connected, and the messages sent down them. A stream is a number; `broken` names the
 * streams whose `send` throws; the timestamp of each message is a parameter.
 */
module Notifications {
  import opened Wrappers
  import opened Keyed

  type Stream = nat

  datatype MessageType = AnalysisStarted | AnalysisCompleted | AnalysisFailed | CreditsUpdated | SystemNotification

  datatype MessageData = MessageData(
    ideaId: Option<int>, title: Option<string>, overallScore: Option<real>,
    creditsRemaining: Option<int>, message: Option<string>, timestamp: string)

  /** `Omit<NotificationMessage, "userId">`. */
  datatype Notification = Notification(kind: MessageType, data: MessageData)

  /** `NotificationMessage`. */
  datatype Message = Message(kind: MessageType, data: MessageData, userId: string)

  /** One message sent down one stream. */
  datatype Delivery = Delivery(stream: Stream, message: Message)

  function SystemMessage(text: string, timestamp: string, userId: string): Message {
    Message(SystemNotification, MessageData(None, None, None, None, Some(text), timestamp), userId)
  }

  const WelcomeText := "Connected to real-time notifications"

  predicate IsPing(m: Message) {
    m.kind == SystemNotification && m.data.message == Some("ping")
  }

  predicate Distinct(cs: seq<Stream>) {
    forall i, j :: 0 <= i < j < |cs| ==> cs[i] != cs[j]
  }

  /** Every user has at least one open stream, listed once. */
  predicate Registry(slots: seq<Slot<seq<Stream>>>) {
    && DistinctKeys(slots)
    && forall i :: 0 <= i < |slots| ==> |slots[i].val| > 0 && Distinct(slots[i].val)
  }

  /** `userConnections.get(userId)`, empty when absent. */
  function StreamsOf(slots: seq<Slot<seq<Stream>>>, userId: string): seq<Stream> {
    match IndexOf(slots, userId)
    case Some(i) => slots[i].val
    case None => []
  }

  /** The streams of `cs` not in `gone`, in order. */
  function Without(cs: seq<Stream>, gone: set<Stream>): (r: seq<Stream>)
    ensures |r| <= |cs|
    ensures forall c :: c in r <==> c in cs && c !in gone
    ensures Distinct(cs) ==> Distinct(r)
  {
    if cs == [] then []
    else
      var rest := Without(cs[1..], gone);
      assert forall c :: c in cs[1..] ==> c in cs;
      if cs[0] in gone then rest else [cs[0]] + rest
  }

  /** Connecting: the stream joins the user's set, which is created when absent. */
  function Connected(slots: seq<Slot<seq<Stream>>>, userId: string, stream: Stream): seq<Slot<seq<Stream>>> {
    var cs := StreamsOf(slots, userId);
    Put(slots, userId, if stream in cs then cs else cs + [stream])
  }

  /** The end of a stream: it leaves the user's set, and an emptied set is deleted. */
  function Disconnected(slots: seq<Slot<seq<Stream>>>, userId: string, stream: Stream): seq<Slot<seq<Stream>>> {
    if IndexOf(slots, userId).None? then slots
    else
      var rest := Without(StreamsOf(slots, userId), {stream});
      if rest == [] then Remove(slots, userId) else Put(slots, userId, rest)
  }

  /** One delivery of `m` per stream of `cs` whose send does not throw, in order. */
  function DeliveriesTo(cs: seq<Stream>, m: Message, broken: set<Stream>): (r: seq<Delivery>)
    ensures forall d :: d in r <==> d.message == m && d.stream in cs && d.stream !in broken
  {
    if cs == [] then []
    else (if cs[0] in broken then [] else [Delivery(cs[0], m)]) + DeliveriesTo(cs[1..], m, broken)
  }

  /** The specification of `SendToUser`: the registry afterwards and the deliveries made. */
  function Sent(slots: seq<Slot<seq<Stream>>>, userId: string, n: Notification, broken: set<Stream>): (seq<Slot<seq<Stream>>>, seq<Delivery>) {
    var cs := StreamsOf(slots, userId);
    if cs == [] then (slots, [])
    else
      var rest := Without(cs, broken);
      (if rest == [] then Remove(slots, userId) else Put(slots, userId, rest),
       DeliveriesTo(cs, Message(n.kind, n.data, userId), broken))
  }

  /** `sendNotificationToUser` for each of `users` in turn: the registry afterwards and every delivery. */
  function SentToAll(slots: seq<Slot<seq<Stream>>>, users: seq<string>, n: Notification, broken: set<Stream>): (seq<Slot<seq<Stream>>>, seq<Delivery>)
    decreases |users|
  {
    if users == [] then (slots, [])
    else
      var (s, ds) := Sent(slots, users[0], n, broken);
      var (s', ds') := SentToAll(s, users[1..], n, broken);
      (s', ds + ds')
  }

  /** The registry and outbox once `users` have been sent `n`, from `slots` and `outbox`. */
  function StillToSend(slots: seq<Slot<seq<Stream>>>, outbox: seq<Delivery>, users: seq<string>, n: Notification, broken: set<Stream>): (seq<Slot<seq<Stream>>>, seq<Delivery>) {
    var r := SentToAll(slots, users, n, broken);
    (r.0, outbox + r.1)
  }

  lemma SentToAllFrom(slots: seq<Slot<seq<Stream>>>, outbox: seq<Delivery>, users: seq<string>, i: nat, n: Notification, broken: set<Stream>)
    requires i < |users|
    ensures var one := Sent(slots, users[i], n, broken);
      StillToSend(slots, outbox, users[i..], n, broken) == StillToSend(one.0, outbox + one.1, users[i + 1..], n, broken)
  {
    assert users[i..][0] == users[i];
    assert users[i..][1..] == users[i + 1..];
    var one := Sent(slots, users[i], n, broken);
    var rest := SentToAll(one.0, users[i + 1..], n, broken);
    assert SentToAll(slots, users[i..], n, broken) == (rest.0, one.1 + rest.1);
    assert outbox + (one.1 + rest.1) == (outbox + one.1) + rest.1;
  }

  /** The sum of the set sizes, `userStats.reduce((sum, s) => sum + s.connections, 0)`. */
  function TotalConnections(slots: seq<Slot<seq<Stream>>>): nat {
    if slots == [] then 0 else |slots[0].val| + TotalConnections(slots[1..])
  }

  datatype UserStat = UserStat(userId: string, connections: nat)

  datatype Stats = Stats(connectedUsers: nat, totalConnections: nat, userStats: seq<UserStat>)

  function SumConnections(stats: seq<UserStat>): nat {
    if stats == [] then 0 else stats[0].connections + SumConnections(stats[1..])
  }

  class Hub {
    var connections: seq<Slot<seq<Stream>>>
    var outbox: seq<Delivery>

    ghost predicate Valid()
      reads this
    {
      Registry(connections)
    }

    constructor ()
      ensures Valid() && connections == [] && outbox == []
    {
      connections := [];
      outbox := [];
    }

    /**
     * `connect`: registers the stream and sends the welcome message. When that send throws,
     * the handler ends before its cleanup, so the stream stays registered.
     */
    method Connect(userId: string, stream: Stream, timestamp: string, welcomeFails: bool)
      requires Valid()
      modifies this
      ensures Valid()
      ensures connections == Connected(old(connections), userId, stream)
      ensures outbox == old(outbox) + (if welcomeFails then [] else [Delivery(stream, SystemMessage(WelcomeText, timestamp, userId))])
    {
      ConnectedKeepsRegistry(connections, userId, stream);
      var cs: seq<Stream> := [];
      var found := IndexOf(connections, userId);
      if found.Some? {
        cs := connections[found.value].val;
      }
      if stream !in cs {
        cs := cs + [stream];
      }
      connections := Put(connections, userId, cs);
      if !welcomeFails {
        outbox := outbox + [Delivery(stream, SystemMessage(WelcomeText, timestamp, userId))];
      }
    }

    /** One message from the client: a ping is answered with a pong; a pong that throws ends the stream. */
    method Receive(userId: string, stream: Stream, m: Message, timestamp: string, sendFails: bool)
      requires Valid()
      modifies this
      ensures Valid()
      ensures IsPing(m) && !sendFails ==>
        connections == old(connections) && outbox == old(outbox) + [Delivery(stream, SystemMessage("pong", timestamp, userId))]
      ensures IsPing(m) && sendFails ==> connections == Disconnected(old(connections), userId, stream) && outbox == old(outbox)
      ensures !IsPing(m) ==> connections == old(connections) && outbox == old(outbox)
    {
      if m.kind == SystemNotification && m.data.message == Some("ping") {
        if sendFails {
          Disconnect(userId, stream);
        } else {
          outbox := outbox + [Delivery(stream, SystemMessage("pong", timestamp, userId))];
        }
      }
    }

    /** The `finally` of `connect`, run when the stream ends or errs. */
    method Disconnect(userId: string, stream: Stream)
      requires Valid()
      modifies this
      ensures Valid()
      ensures connections == Disconnected(old(connections), userId, stream) && outbox == old(outbox)
    {
      DisconnectedKeepsRegistry(connections, userId, stream);
      var found := IndexOf(connections, userId);
      if found.Some? {
        var rest := Without(connections[found.value].val, {stream});
        if |rest| == 0 {
          connections := Remove(connections, userId);
        } else {
          connections := Put(connections, userId, rest);
        }
      }
    }

    /** `sendNotificationToUser`. */
    method SendToUser(userId: string, n: Notification, broken: set<Stream>)
      requires Valid()
      modifies this
      ensures Valid()
      ensures (connections, outbox) == (Sent(old(connections), userId, n, broken).0, old(outbox) + Sent(old(connections), userId, n, broken).1)
    {
      SentKeepsRegistry(connections, userId, n, broken);
      var found := IndexOf(connections, userId);
      if found.None? || |connections[found.value].val| == 0 {
        assert outbox + [] == outbox;
        return;
      }
      var cs := connections[found.value].val;
      var failed := SendEach(cs, Message(n.kind, n.data, userId), broken);
      var rest := Prune(cs, failed, broken);
      if |rest| == 0 {
        connections := Remove(connections, userId);
      } else {
        connections := Put(connections, userId, rest);
      }
    }

    /** The sending loop: one send per stream, collecting the streams whose send throws. */
    method SendEach(cs: seq<Stream>, m: Message, broken: set<Stream>) returns (failed: seq<Stream>)
      modifies this
      ensures connections == old(connections)
      ensures outbox == old(outbox) + DeliveriesTo(cs, m, broken)
      ensures forall c :: c in failed <==> c in cs && c in broken
    {
      failed := [];
      for i := 0 to |cs|
        invariant connections == old(connections)
        invariant outbox == old(outbox) + DeliveriesPrefix(cs, i, m, broken)
        invariant forall c :: c in failed <==> c in cs[..i] && c in broken
      {
        DeliveriesPrefixStep(cs, i, m, broken);
        assert cs[..i + 1] == cs[..i] + [cs[i]];
        if cs[i] in broken {
          failed := failed + [cs[i]];
        } else {
          outbox := outbox + [Delivery(cs[i], m)];
        }
      }
      DeliveriesPrefixAll(cs, m, broken);
      assert cs[..|cs|] == cs;
    }

    /**
     * `broadcastNotification`: one `sendNotificationToUser` per registered user, in key order.
     * A send deletes at most its own user's key, so iterating the live keys visits the same
     * users as iterating the keys held at the start.
     */
    method Broadcast(n: Notification, broken: set<Stream>)
      requires Valid()
      modifies this
      ensures Valid()
      ensures connections == SentToAll(old(connections), KeysOf(old(connections)), n, broken).0
      ensures outbox == old(outbox) + SentToAll(old(connections), KeysOf(old(connections)), n, broken).1
    {
      var users := KeysOf(connections);
      ghost var final := SentToAll(connections, users, n, broken);
      ghost var outbox0 := outbox;
      for i := 0 to |users|
        invariant Valid()
        invariant StillToSend(connections, outbox, users[i..], n, broken) == (final.0, outbox0 + final.1)
      {
        SentToAllFrom(connections, outbox, users, i, n, broken);
        SendToUser(users[i], n, broken);
      }
    }

    /** `getStats`. */
    method GetStats() returns (stats: Stats)
      requires Valid()
      ensures stats.connectedUsers == |connections| && stats.totalConnections == TotalConnections(connections)
      ensures |stats.userStats| == |connections|
      ensures forall i :: 0 <= i < |connections| ==>
        stats.userStats[i] == UserStat(connections[i].key, |connections[i].val|)
    {
      var conns := connections;
      var userStats := seq(|conns|, i requires 0 <= i < |conns| => UserStat(conns[i].key, |conns[i].val|));
      SumMatchesTotal(conns, userStats);
      stats := Stats(|connections|, SumConnections(userStats), userStats);
    }
  }

  /** The cleanup loop: deletes each failed stream from the set. */
  method Prune(cs: seq<Stream>, failed: seq<Stream>, ghost broken: set<Stream>) returns (rest: seq<Stream>)
    requires forall c :: c in failed <==> c in cs && c in broken
    ensures rest == Without(cs, broken)
  {
    rest := cs;
    ghost var gone: set<Stream> := {};
    WithoutNothing(cs);
    for k := 0 to |failed|
      invariant forall c :: c in gone <==> c in failed[..k]
      invariant rest == Without(cs, gone)
    {
      assert failed[..k + 1] == failed[..k] + [failed[k]];
      WithoutTwice(cs, gone, {failed[k]});
      rest := Without(rest, {failed[k]});
      gone := gone + {failed[k]};
    }
    assert failed[..|failed|] == failed;
    WithoutSameSet(cs, gone, broken);
  }

  /** `DeliveriesTo` over the first `i` streams. */
  function DeliveriesPrefix(cs: seq<Stream>, i: nat, m: Message, broken: set<Stream>): seq<Delivery>
    requires i <= |cs|
  {
    if i == 0 then [] else DeliveriesPrefix(cs, i - 1, m, broken) + (if cs[i - 1] in broken then [] else [Delivery(cs[i - 1], m)])
  }

  lemma DeliveriesPrefixStep(cs: seq<Stream>, i: nat, m: Message, broken: set<Stream>)
    requires i < |cs|
    ensures DeliveriesPrefix(cs, i + 1, m, broken) == DeliveriesPrefix(cs, i, m, broken) + (if cs[i] in broken then [] else [Delivery(cs[i], m)])
  {
  }

  lemma {:induction false} DeliveriesPrefixAll(cs: seq<Stream>, m: Message, broken: set<Stream>)
    ensures DeliveriesPrefix(cs, |cs|, m, broken) == DeliveriesTo(cs, m, broken)
    decreases |cs|
  {
    if cs != [] {
      DeliveriesPrefixAll(cs[1..], m, broken);
      DeliveriesPrefixShift(cs, |cs| - 1, m, broken);
    }
  }

  lemma {:induction false} DeliveriesPrefixShift(cs: seq<Stream>, i: nat, m: Message, broken: set<Stream>)
    requires 0 < |cs| && i <= |cs| - 1
    ensures DeliveriesPrefix(cs, i + 1, m, broken)
         == (if cs[0] in broken then [] else [Delivery(cs[0], m)]) + DeliveriesPrefix(cs[1..], i, m, broken)
  {
    if i > 0 {
      DeliveriesPrefixShift(cs, i - 1, m, broken);
    }
  }

  lemma {:induction false} WithoutNothing(cs: seq<Stream>)
    ensures Without(cs, {}) == cs
  {
    if cs != [] {
      WithoutNothing(cs[1..]);
    }
  }

  lemma {:induction false} WithoutTwice(cs: seq<Stream>, a: set<Stream>, b: set<Stream>)
    ensures Without(Without(cs, a), b) == Without(cs, a + b)
  {
    if cs != [] {
      WithoutTwice(cs[1..], a, b);
    }
  }

  lemma {:induction false} WithoutSameSet(cs: seq<Stream>, a: set<Stream>, b: set<Stream>)
    requires forall c :: c in cs ==> (c in a <==> c in b)
    ensures Without(cs, a) == Without(cs, b)
  {
    if cs != [] {
      assert forall c :: c in cs[1..] ==> c in cs;
      WithoutSameSet(cs[1..], a, b);
    }
  }

  lemma {:induction false} SumMatchesTotal(slots: seq<Slot<seq<Stream>>>, stats: seq<UserStat>)
    requires |stats| == |slots| && forall i :: 0 <= i < |slots| ==> stats[i].connections == |slots[i].val|
    ensures SumConnections(stats) == TotalConnections(slots)
  {
    if slots != [] {
      SumMatchesTotal(slots[1..], stats[1..]);
    }
  }

  lemma ConnectedKeepsRegistry(slots: seq<Slot<seq<Stream>>>, userId: string, stream: Stream)
    requires Registry(slots)
    ensures Registry(Connected(slots, userId, stream))
  {
    var cs := StreamsOf(slots, userId);
    var v := if stream in cs then cs else cs + [stream];
    PutKeepsDistinct(slots, userId, v);
    var r := Put(slots, userId, v);
    forall i | 0 <= i < |r|
      ensures |r[i].val| > 0 && Distinct(r[i].val)
    {
      if r[i] != Slot(userId, v) {
        assert i < |slots| && r[i] == slots[i];
      }
    }
  }

  lemma DisconnectedKeepsRegistry(slots: seq<Slot<seq<Stream>>>, userId: string, stream: Stream)
    requires Registry(slots)
    ensures Registry(Disconnected(slots, userId, stream))
  {
    if IndexOf(slots, userId).Some? {
      var rest := Without(StreamsOf(slots, userId), {stream});
      RestKeepsRegistry(slots, userId, rest);
    }
  }

  lemma RestKeepsRegistry(slots: seq<Slot<seq<Stream>>>, userId: string, rest: seq<Stream>)
    requires Registry(slots) && Distinct(rest)
    ensures Registry(if rest == [] then Remove(slots, userId) else Put(slots, userId, rest))
  {
    if rest == [] {
      RemoveDropsKey(slots, userId);
      var r := Remove(slots, userId);
      forall i | 0 <= i < |r|
        ensures |r[i].val| > 0 && Distinct(r[i].val)
      {
        assert r[i] in slots;
      }
    } else {
      PutKeepsDistinct(slots, userId, rest);
      var r := Put(slots, userId, rest);
      forall i | 0 <= i < |r|
        ensures |r[i].val| > 0 && Distinct(r[i].val)
      {
        if r[i] != Slot(userId, rest) {
          assert i < |slots| && r[i] == slots[i];
        }
      }
    }
  }

  lemma SentKeepsRegistry(slots: seq<Slot<seq<Stream>>>, userId: string, n: Notification, broken: set<Stream>)
    requires Registry(slots)
    ensures Registry(Sent(slots, userId, n, broken).0)
  {
    var cs := StreamsOf(slots, userId);
    if cs != [] {
      RestKeepsRegistry(slots, userId, Without(cs, broken));
    }
  }

  /** After connecting, the stream is one of the user's streams, and no other user's streams change. */
  lemma ConnectRegisters(slots: seq<Slot<seq<Stream>>>, userId: string, stream: Stream, other: string)
    requires Registry(slots)
    ensures stream in StreamsOf(Connected(slots, userId, stream), userId)
    ensures forall c :: c in StreamsOf(slots, userId) ==> c in StreamsOf(Connected(slots, userId, stream), userId)
    ensures other != userId ==> StreamsOf(Connected(slots, userId, stream), other) == StreamsOf(slots, other)
  {
    var cs := StreamsOf(slots, userId);
    PutThenGet(slots, userId, if stream in cs then cs else cs + [stream], other);
  }

  /**
   * After a stream ends it is no longer listed for its user; the user stays registered exactly
   * when another stream remains, and no other user's streams change.
   */
  lemma DisconnectRemoves(slots: seq<Slot<seq<Stream>>>, userId: string, stream: Stream, other: string)
    requires Registry(slots)
    ensures var r := Disconnected(slots, userId, stream);
      && stream !in StreamsOf(r, userId)
      && (forall c :: c in StreamsOf(r, userId) <==> c in StreamsOf(slots, userId) && c != stream)
      && (IndexOf(r, userId).Some? <==> exists c :: c in StreamsOf(slots, userId) && c != stream)
      && (other != userId ==> StreamsOf(r, other) == StreamsOf(slots, other))
  {
    if IndexOf(slots, userId).Some? {
      var rest := Without(StreamsOf(slots, userId), {stream});
      if rest == [] {
        RemoveDropsKey(slots, userId);
        if other != userId {
          RemoveKeepsOthers(slots, userId, other);
        }
      } else {
        assert rest[0] in rest;
        PutThenGet(slots, userId, rest, other);
      }
    }
  }

  lemma RemoveKeepsOthers(slots: seq<Slot<seq<Stream>>>, key: string, other: string)
    requires DistinctKeys(slots) && other != key
    ensures StreamsOf(Remove(slots, key), other) == StreamsOf(slots, other)
  {
    RemoveThenGet(slots, key, other);
  }

  /**
   * A send to a user with no streams does nothing. Otherwise every stream that does not throw
   * receives the notification tagged with the user id, the throwing streams are dropped, and
   * the user is deregistered when none remains.
   */
  lemma SendDeliversAndPrunes(slots: seq<Slot<seq<Stream>>>, userId: string, n: Notification, broken: set<Stream>, other: string)
    requires Registry(slots)
    ensures var (r, ds) := Sent(slots, userId, n, broken);
      var cs := StreamsOf(slots, userId);
      && (cs == [] ==> r == slots && ds == [])
      && (forall d :: d in ds <==> d == Delivery(d.stream, Message(n.kind, n.data, userId)) && d.stream in cs && d.stream !in broken)
      && (forall c :: c in StreamsOf(r, userId) <==> c in cs && c !in broken)
      && (IndexOf(r, userId).Some? ==> StreamsOf(r, userId) != [])
      && (other != userId ==> StreamsOf(r, other) == StreamsOf(slots, other))
  {
    var cs := StreamsOf(slots, userId);
    if cs != [] {
      var rest := Without(cs, broken);
      if rest == [] {
        RemoveDropsKey(slots, userId);
        if other != userId {
          RemoveKeepsOthers(slots, userId, other);
        }
      } else {
        assert rest[0] in rest;
        PutThenGet(slots, userId, rest, other);
      }
    }
  }

  /**
   * A broadcast over distinct users delivers to each of them exactly what a send to that user
   * alone would have delivered, and leaves every other user's streams and inbox alone.
   */
  lemma {:induction false} BroadcastDelivers(slots: seq<Slot<seq<Stream>>>, users: seq<string>, n: Notification, broken: set<Stream>, u: string)
    requires Registry(slots)
    requires forall i, j :: 0 <= i < j < |users| ==> users[i] != users[j]
    ensures var (r, ds) := SentToAll(slots, users, n, broken);
      && (u !in users ==> StreamsOf(r, u) == StreamsOf(slots, u) && forall d :: d in ds ==> d.message.userId != u)
      && (u in users ==> forall d :: d in ds && d.message.userId == u <==> d in Sent(slots, u, n, broken).1)
    decreases |users|
  {
    if users != [] {
      var x := users[0];
      var (s, ds0) := Sent(slots, x, n, broken);
      SentKeepsRegistry(slots, x, n, broken);
      SendDeliversAndPrunes(slots, x, n, broken, u);
      var tail := users[1..];
      assert forall i, j :: 0 <= i < j < |tail| ==> tail[i] != tail[j] by {
        forall i, j | 0 <= i < j < |tail|
          ensures tail[i] != tail[j]
        {
          assert tail[i] == users[i + 1] && tail[j] == users[j + 1];
        }
      }
      BroadcastDelivers(s, tail, n, broken, u);
      if u == x {
        assert u !in tail by {
          forall j | 0 <= j < |tail|
            ensures tail[j] != u
          {
            assert tail[j] == users[j + 1];
          }
        }
      } else {
        assert u in users <==> u in tail;
      }
    }
  }

  /** A new stream adds one to the connection total; ending a listed stream takes one off. */
  lemma ConnectCountsOne(slots: seq<Slot<seq<Stream>>>, userId: string, stream: Stream)
    requires Registry(slots) && stream !in StreamsOf(slots, userId)
    ensures TotalConnections(Connected(slots, userId, stream)) == TotalConnections(slots) + 1
  {
    var cs := StreamsOf(slots, userId);
    match IndexOf(slots, userId)
    case Some(i) =>
      TotalUpdate(slots, i, Slot(userId, cs + [stream]));
    case None =>
      assert cs + [stream] == [stream];
      assert Connected(slots, userId, stream) == slots + [Slot(userId, [stream])];
      TotalAppend(slots, [Slot(userId, [stream])]);
  }

  lemma DisconnectCountsOne(slots: seq<Slot<seq<Stream>>>, userId: string, stream: Stream)
    requires Registry(slots) && stream in StreamsOf(slots, userId)
    ensures TotalConnections(Disconnected(slots, userId, stream)) == TotalConnections(slots) - 1
  {
    var i := IndexOf(slots, userId).value;
    var cs := slots[i].val;
    var rest := Without(cs, {stream});
    WithoutOne(cs, stream);
    if rest == [] {
      TotalUpdate(slots, i, Slot(userId, []));
      assert Remove(slots, userId) == slots[..i] + slots[i + 1..];
      TotalAppend(slots[..i], slots[i + 1..]);
      TotalAppend(slots[..i], [Slot(userId, [])] + slots[i + 1..]);
      assert slots[i := Slot(userId, [])] == slots[..i] + ([Slot(userId, [])] + slots[i + 1..]);
    } else {
      TotalUpdate(slots, i, Slot(userId, rest));
    }
  }

  lemma {:induction false} WithoutOne(cs: seq<Stream>, c: Stream)
    requires Distinct(cs) && c in cs
    ensures |Without(cs, {c})| == |cs| - 1
  {
    if cs[0] != c {
      assert c in cs[1..];
      WithoutOne(cs[1..], c);
    } else {
      WithoutAbsent(cs[1..], c);
    }
  }

  lemma {:induction false} WithoutAbsent(cs: seq<Stream>, c: Stream)
    requires c !in cs
    ensures Without(cs, {c}) == cs
  {
    if cs != [] {
      WithoutAbsent(cs[1..], c);
    }
  }

  lemma {:induction false} TotalAppend(a: seq<Slot<seq<Stream>>>, b: seq<Slot<seq<Stream>>>)
    ensures TotalConnections(a + b) == TotalConnections(a) + TotalConnections(b)
  {
    if a != [] {
      assert (a + b)[0] == a[0] && (a + b)[1..] == a[1..] + b;
      TotalAppend(a[1..], b);
      assert TotalConnections(a + b) == |a[0].val| + TotalConnections(a[1..] + b);
    } else {
      assert a + b == b;
    }
  }

  lemma TotalUpdate(slots: seq<Slot<seq<Stream>>>, i: nat, x: Slot<seq<Stream>>)
    requires i < |slots|
    ensures TotalConnections(slots[i := x]) == TotalConnections(slots) - |slots[i].val| + |x.val|
  {
    assert slots == slots[..i] + ([slots[i]] + slots[i + 1..]);
    assert slots[i := x] == slots[..i] + ([x] + slots[i + 1..]);
    TotalAppend(slots[..i], [slots[i]] + slots[i + 1..]);
    TotalAppend(slots[..i], [x] + slots[i + 1..]);
  }
}
