/**
 * The MQTT client wrapper: connection parameters and their validation, the
 * list of desired subscriptions that survives reconnects, the loop flags and
 * the reconnect delay. The broker and the paho client are not modelled: every
 * call the wrapper makes on them is appended to a ghost wire log, and what the
 * broker answers is a parameter of the operation that makes the call.
 */
module Mqtt {
  import opened Json

  /** One entry of the desired-subscription list. */
  datatype Subscription = Subscription(topic: string, qos: int, mid: int)

  /** What the broker answers to a subscribe or unsubscribe: success with a message id, or a failure (error code or exception). */
  datatype Reply = Accepted(mid: int) | Refused

  datatype LoopType = Thread | Forever

  /** A publish payload as the caller hands it over. */
  datatype Payload = Text(s: string) | Bytes(b: seq<bv8>) | Other(v: Json)

  /** The payload as it goes on the wire: unchanged, `json.dumps` of a dict, or `str()` of anything else. */
  datatype WirePayload = AsGiven(p: Payload) | JsonDump(fields: map<string, Json>) | StrOf(v: Json)

  /** One call the wrapper makes on the paho client. */
  datatype WireCall =
    | WConnect(url: string, port: int, async: bool)
    | WDisconnect
    | WSubscribe(topic: string, qos: int)
    | WUnsubscribe(topic: string)
    | WPublish(topic: string, payload: WirePayload, qos: int, retain: bool)
    | WLoopStart
    | WLoopForever
    | WLoopStop

  const MaxPort := 65535

  /** The port check of `connect`. */
  predicate ValidPort(port: int) {
    0 < port <= MaxPort
  }

  /** The payload conversion of `publish`. */
  function ToWire(p: Payload): (w: WirePayload)
    ensures p.Text? || p.Bytes? ==> w == AsGiven(p)
    ensures p.Other? && p.v.JObj? ==> w == JsonDump(p.v.fields)
    ensures p.Other? && !p.v.JObj? ==> w == StrOf(p.v)
  {
    match p
    case Other(JObj(m)) => JsonDump(m)
    case Other(v) => StrOf(v)
    case _ => AsGiven(p)
  }

  // ---------------------------------------------------------------------------
  // The desired-subscription list
  // ---------------------------------------------------------------------------

  predicate UniqueTopics(subs: seq<Subscription>) {
    forall i, j :: 0 <= i < j < |subs| ==> subs[i].topic != subs[j].topic
  }

  /** The topics of the list, in order, as `get_status` reports them. */
  function Topics(subs: seq<Subscription>): (ts: seq<string>)
    ensures |ts| == |subs|
    ensures forall i :: 0 <= i < |subs| ==> ts[i] == subs[i].topic
  {
    seq(|subs|, i requires 0 <= i < |subs| => subs[i].topic)
  }

  /** Index of the first entry for topic, or |subs|. */
  function FindTopic(subs: seq<Subscription>, topic: string): (k: nat)
    ensures k <= |subs|
    ensures k < |subs| ==> subs[k].topic == topic
    ensures forall j :: 0 <= j < k ==> subs[j].topic != topic
  {
    if subs == [] then 0
    else if subs[0].topic == topic then 0
    else 1 + FindTopic(subs[1..], topic)
  }

  /** `subscribe`'s bookkeeping: replace the first entry for the same topic in place, else append. */
  function Upsert(subs: seq<Subscription>, x: Subscription): (r: seq<Subscription>)
    ensures |subs| <= |r| <= |subs| + 1
    ensures x in r
  {
    var k := FindTopic(subs, x.topic);
    if k < |subs| then
      var r := subs[k := x];
      assert r[k] == x;
      r
    else subs + [x]
  }

  /** `[t for t in subscribed_topics if t['topic'] != topic]`. */
  function Without(subs: seq<Subscription>, topic: string): (r: seq<Subscription>)
    ensures |r| <= |subs|
    decreases |subs|
  {
    if subs == [] then []
    else Without(subs[..|subs| - 1], topic) + if subs[|subs| - 1].topic != topic then [subs[|subs| - 1]] else []
  }

  /**
   * Upsert keeps the topics unique, makes x the one entry for its topic, leaves
   * every entry for another topic where it was, and grows the list only for a new topic.
   */
  lemma UpsertEffect(subs: seq<Subscription>, x: Subscription)
    requires UniqueTopics(subs)
    ensures var r := Upsert(subs, x);
      && UniqueTopics(r)
      && x in r
      && (forall i :: 0 <= i < |r| && r[i].topic == x.topic ==> r[i] == x)
      && (forall i :: 0 <= i < |subs| && subs[i].topic != x.topic ==> r[i] == subs[i])
      && |r| == if x.topic in Topics(subs) then |subs| else |subs| + 1
  {
    var k := FindTopic(subs, x.topic);
    var r := Upsert(subs, x);
    if k < |subs| {
      assert x.topic in Topics(subs) by { assert Topics(subs)[k] == x.topic; }
      assert r[k] == x;
      forall i, j | 0 <= i < j < |r| ensures r[i].topic != r[j].topic {
        if i != k && j != k {
          assert r[i] == subs[i] && r[j] == subs[j];
        } else if i == k {
          assert subs[j].topic != subs[k].topic;
        } else {
          assert subs[i].topic != subs[k].topic;
        }
      }
    } else {
      assert x.topic !in Topics(subs) by {
        forall i | 0 <= i < |subs| ensures Topics(subs)[i] != x.topic {}
      }
      assert r[|subs|] == x;
    }
  }

  /** The filtered list holds exactly the entries for other topics. */
  lemma {:induction false} WithoutExact(subs: seq<Subscription>, topic: string, y: Subscription)
    ensures y in Without(subs, topic) <==> y in subs && y.topic != topic
    decreases |subs|
  {
    if subs != [] {
      var init := subs[..|subs| - 1];
      WithoutExact(init, topic, y);
      assert subs == init + [subs[|subs| - 1]];
    }
  }

  /** Removing a topic twice is removing it once. */
  lemma {:induction false} WithoutIdempotent(subs: seq<Subscription>, topic: string)
    ensures Without(Without(subs, topic), topic) == Without(subs, topic)
    decreases |subs|
  {
    if subs != [] {
      var init := subs[..|subs| - 1];
      var last := subs[|subs| - 1];
      WithoutIdempotent(init, topic);
      var w := Without(init, topic);
      if last.topic != topic {
        assert (w + [last])[..|w + [last]| - 1] == w;
      } else {
        assert Without(subs, topic) == w;
      }
    }
  }

  /** Filtering a list with unique topics keeps them unique. */
  lemma {:induction false} WithoutKeepsUnique(subs: seq<Subscription>, topic: string)
    requires UniqueTopics(subs)
    ensures UniqueTopics(Without(subs, topic))
    decreases |subs|
  {
    if subs != [] {
      var init := subs[..|subs| - 1];
      var last := subs[|subs| - 1];
      WithoutKeepsUnique(init, topic);
      var w := Without(init, topic);
      if last.topic != topic {
        forall i | 0 <= i < |w| ensures w[i].topic != last.topic {
          WithoutExact(init, topic, w[i]);
          var j :| 0 <= j < |init| && init[j] == w[i];
          assert subs[j] == w[i];
        }
      }
    }
  }

  /** Replacing an entry of the topic being removed does not change the filtered list. */
  lemma {:induction false} WithoutIgnoresReplaced(subs: seq<Subscription>, k: nat, x: Subscription)
    requires k < |subs| && subs[k].topic == x.topic
    ensures Without(subs[k := x], x.topic) == Without(subs, x.topic)
    decreases |subs|
  {
    var n := |subs|;
    var r := subs[k := x];
    if k < n - 1 {
      assert r[..n - 1] == subs[..n - 1][k := x];
      WithoutIgnoresReplaced(subs[..n - 1], k, x);
    } else {
      assert r[..n - 1] == subs[..n - 1];
    }
  }

  /** Unsubscribing after a subscribe leaves the list as unsubscribing alone would: no trace of the topic stays. */
  lemma SubscribeThenUnsubscribe(subs: seq<Subscription>, x: Subscription)
    ensures Without(Upsert(subs, x), x.topic) == Without(subs, x.topic)
  {
    var k := FindTopic(subs, x.topic);
    if k < |subs| {
      WithoutIgnoresReplaced(subs, k, x);
    } else {
      assert (subs + [x])[..|subs|] == subs;
    }
  }

  /** The subscribe calls `_resubscribe_topics` issues for a list. */
  function Resubscriptions(subs: seq<Subscription>): (calls: seq<WireCall>)
    ensures |calls| == |subs|
    decreases |subs|
  {
    if subs == [] then []
    else Resubscriptions(subs[..|subs| - 1]) + [WSubscribe(subs[|subs| - 1].topic, subs[|subs| - 1].qos)]
  }

  /** Every recorded entry is re-issued, in list order, with its recorded qos. */
  lemma {:induction false} ResubscriptionsInOrder(subs: seq<Subscription>, i: nat)
    requires i < |subs|
    ensures Resubscriptions(subs)[i] == WSubscribe(subs[i].topic, subs[i].qos)
    decreases |subs|
  {
    if i < |subs| - 1 {
      ResubscriptionsInOrder(subs[..|subs| - 1], i);
    }
  }

  // ---------------------------------------------------------------------------
  // The client
  // ---------------------------------------------------------------------------

  /** What `get_status` reports about the state this model keeps. */
  datatype Status = Status(
    connected: bool,
    subscribedTopics: seq<string>,
    loopRunning: bool,
    loopType: Option<LoopType>,
    currentReconnectDelay: int)

  class MqttClient {
    const brokerUrl: string
    const brokerPort: int
    const useWebsockets: bool
    const reconnectDelay: int

    /** Whether the paho client object exists (`self.client` is not None). */
    var hasClient: bool
    var isConnected: bool
    var subscribedTopics: seq<Subscription>
    var loopRunning: bool
    var loopType: Option<LoopType>
    var currentReconnectDelay: int
    /** Every call made on the paho client, in order. */
    ghost var wire: seq<WireCall>

    ghost predicate Valid()
      reads this`subscribedTopics, this`loopRunning, this`loopType
    {
      UniqueTopics(subscribedTopics) && (loopRunning ==> loopType == Some(Thread))
    }

    /** `__init__`; `clientCreated` says whether creating the paho client succeeded. */
    constructor(brokerUrl: string, brokerPort: int, useWebsockets: bool, reconnectDelay: int, clientCreated: bool)
      ensures Valid()
      ensures this.brokerUrl == brokerUrl && this.brokerPort == brokerPort
      ensures this.useWebsockets == useWebsockets && this.reconnectDelay == reconnectDelay
      ensures hasClient == clientCreated && !isConnected && subscribedTopics == []
      ensures !loopRunning && loopType == None && currentReconnectDelay == reconnectDelay && wire == []
    {
      this.brokerUrl := brokerUrl;
      this.brokerPort := brokerPort;
      this.useWebsockets := useWebsockets;
      this.reconnectDelay := reconnectDelay;
      hasClient := clientCreated;
      isConnected := false;
      subscribedTopics := [];
      loopRunning := false;
      loopType := None;
      currentReconnectDelay := reconnectDelay;
      wire := [];
    }

    /**
     * `start_loop`. `raises` says whether the paho loop call raises. A blocking loop
     * is modelled by its effect once it returns.
     */
    method StartLoop(kind: string, raises: bool) returns (ok: bool)
      requires Valid()
      modifies this`loopRunning, this`loopType, this`wire
      ensures Valid()
      ensures !hasClient ==> !ok && unchanged(this)
      ensures hasClient && old(loopRunning) ==> ok && unchanged(this)
      ensures hasClient && !old(loopRunning) && kind == "thread" ==>
        && ok == !raises
        && wire == old(wire) + [WLoopStart]
        && loopRunning == !raises
        && loopType == if raises then None else Some(Thread)
      ensures hasClient && !old(loopRunning) && kind == "forever" ==>
        ok && wire == old(wire) + [WLoopForever] && !loopRunning && loopType == Some(Forever)
      ensures hasClient && !old(loopRunning) && kind != "thread" && kind != "forever" ==> !ok && unchanged(this)
    {
      if !hasClient {
        return false;
      }
      if loopRunning {
        return true;
      }
      if kind == "thread" {
        loopType := Some(Thread);
        wire := wire + [WLoopStart];
        if raises {
          loopRunning := false;
          loopType := None;
          return false;
        }
        loopRunning := true;
      } else if kind == "forever" {
        loopType := Some(Forever);
        loopRunning := true;
        wire := wire + [WLoopForever];
        loopRunning := false;
      } else {
        return false;
      }
      ok := true;
    }

    /** `stop_loop`. `raises` says whether the paho call raises. */
    method StopLoop(raises: bool) returns (ok: bool)
      requires Valid()
      modifies this`loopRunning, this`loopType, this`wire
      ensures Valid()
      ensures !hasClient ==> !ok && unchanged(this)
      ensures hasClient && !old(loopRunning) ==> ok && unchanged(this)
      ensures hasClient && old(loopRunning) ==> wire == old(wire) + [WLoopStop] && ok == !raises
      ensures hasClient && old(loopRunning) && raises ==> loopRunning && loopType == old(loopType)
      ensures hasClient && old(loopRunning) && !raises ==> !loopRunning && loopType == None
    {
      if !hasClient {
        return false;
      }
      if !loopRunning {
        return true;
      }
      wire := wire + [WLoopStop];
      if raises {
        return false;
      }
      loopRunning := false;
      loopType := None;
      ok := true;
    }

    /**
     * `connect`. `reinitCreates` is the outcome of re-creating a missing client,
     * `raises` whether the broker connect call raises, `loopRaises` whether starting
     * the network loop raises. The connection itself is only reported later, by OnConnect.
     */
    method Connect(reinitCreates: bool, raises: bool, loopRaises: bool) returns (ok: bool)
      requires Valid()
      modifies this`hasClient, this`loopRunning, this`loopType, this`wire
      ensures Valid()
      ensures old(isConnected) ==> ok && unchanged(this)
      ensures !old(isConnected) && !old(hasClient) ==>
        !ok && hasClient == reinitCreates && wire == old(wire) && loopRunning == old(loopRunning) && loopType == old(loopType)
      ensures !old(isConnected) && old(hasClient) && (brokerUrl == "" || !ValidPort(brokerPort)) ==> !ok && unchanged(this)
      ensures !old(isConnected) && old(hasClient) && brokerUrl != "" && ValidPort(brokerPort) ==>
        && ok == !raises
        && hasClient
        && (raises ==> wire == old(wire) + [WConnect(brokerUrl, brokerPort, useWebsockets)] && unchanged(this`loopRunning, this`loopType))
        && (!raises && old(loopRunning) ==> wire == old(wire) + [WConnect(brokerUrl, brokerPort, useWebsockets)] && unchanged(this`loopRunning, this`loopType))
        && (!raises && !old(loopRunning) ==>
              && wire == old(wire) + [WConnect(brokerUrl, brokerPort, useWebsockets), WLoopStart]
              && loopRunning == !loopRaises
              && loopType == if loopRaises then None else Some(Thread))
    {
      if isConnected {
        return true;
      }
      if !hasClient {
        hasClient := reinitCreates;
        return false;
      }
      if brokerUrl == "" {
        return false;
      }
      if !ValidPort(brokerPort) {
        return false;
      }
      wire := wire + [WConnect(brokerUrl, brokerPort, useWebsockets)];
      if raises {
        return false;
      }
      ghost var connected := wire;
      var started := StartLoop("thread", loopRaises);
      assert wire[..|connected|] == connected;
      ok := true;
    }

    /** `disconnect`. `raises` says whether the paho call raises. */
    method Disconnect(raises: bool)
      modifies this`isConnected, this`wire
      ensures hasClient && old(isConnected) ==> wire == old(wire) + [WDisconnect] && isConnected == raises
      ensures !(hasClient && old(isConnected)) ==> unchanged(this)
    {
      if hasClient && isConnected {
        wire := wire + [WDisconnect];
        if !raises {
          isConnected := false;
        }
      }
    }

    /** `subscribe`: on success, replace the entry for the topic in place or append one. */
    method Subscribe(topic: string, qos: int, reply: Reply) returns (ok: bool)
      requires Valid()
      modifies this`subscribedTopics, this`wire
      ensures Valid()
      ensures topic == "" || !hasClient || !isConnected ==> !ok && unchanged(this)
      ensures topic != "" && hasClient && isConnected ==>
        && wire == old(wire) + [WSubscribe(topic, qos)]
        && ok == reply.Accepted?
        && subscribedTopics == if reply.Accepted? then Upsert(old(subscribedTopics), Subscription(topic, qos, reply.mid)) else old(subscribedTopics)
    {
      if topic == "" || !hasClient || !isConnected {
        return false;
      }
      wire := wire + [WSubscribe(topic, qos)];
      if reply.Refused? {
        return false;
      }
      var entry := Subscription(topic, qos, reply.mid);
      UpsertEffect(subscribedTopics, entry);
      var found := false;
      var i := 0;
      while i < |subscribedTopics|
        invariant 0 <= i <= |subscribedTopics|
        invariant !found ==> subscribedTopics == old(subscribedTopics) && forall j :: 0 <= j < i ==> subscribedTopics[j].topic != topic
        invariant found ==> subscribedTopics == Upsert(old(subscribedTopics), entry)
      {
        if subscribedTopics[i].topic == topic {
          assert FindTopic(subscribedTopics, topic) == i;
          subscribedTopics := subscribedTopics[i := entry];
          found := true;
          break;
        }
        i := i + 1;
      }
      if !found {
        assert FindTopic(subscribedTopics, topic) == |subscribedTopics|;
        subscribedTopics := subscribedTopics + [entry];
      }
      ok := true;
    }

    /** `unsubscribe`: offline the topic is dropped from the list at once; online only once the broker accepts. */
    method Unsubscribe(topic: string, reply: Reply) returns (ok: bool)
      requires Valid()
      modifies this`subscribedTopics, this`wire
      ensures Valid()
      ensures topic == "" ==> !ok && unchanged(this)
      ensures topic != "" && !(hasClient && isConnected) ==>
        ok && subscribedTopics == Without(old(subscribedTopics), topic) && wire == old(wire)
      ensures topic != "" && hasClient && isConnected ==>
        && wire == old(wire) + [WUnsubscribe(topic)]
        && ok == reply.Accepted?
        && subscribedTopics == if reply.Accepted? then Without(old(subscribedTopics), topic) else old(subscribedTopics)
    {
      if topic == "" {
        return false;
      }
      WithoutKeepsUnique(subscribedTopics, topic);
      if !hasClient || !isConnected {
        subscribedTopics := Without(subscribedTopics, topic);
        return true;
      }
      wire := wire + [WUnsubscribe(topic)];
      if reply.Refused? {
        return false;
      }
      subscribedTopics := Without(subscribedTopics, topic);
      ok := true;
    }

    /** `publish`: refused for an empty topic or while offline; otherwise the converted payload goes out. */
    method Publish(topic: string, payload: Payload, qos: int, retain: bool, accepted: bool) returns (ok: bool)
      modifies this`wire
      ensures topic == "" || !hasClient || !isConnected ==> !ok && wire == old(wire)
      ensures topic != "" && hasClient && isConnected ==>
        ok == accepted && wire == old(wire) + [WPublish(topic, ToWire(payload), qos, retain)]
    {
      if topic == "" || !hasClient || !isConnected {
        return false;
      }
      var out := ToWire(payload);
      wire := wire + [WPublish(topic, out, qos, retain)];
      ok := accepted;
    }

    /** `_resubscribe_topics`: re-issue every recorded subscription, in order, with its qos; replies are only logged. */
    method ResubscribeTopics()
      modifies this`wire
      ensures hasClient && isConnected ==> wire == old(wire) + Resubscriptions(subscribedTopics)
      ensures !(hasClient && isConnected) ==> wire == old(wire)
    {
      if !hasClient || !isConnected {
        return;
      }
      var i := 0;
      while i < |subscribedTopics|
        invariant 0 <= i <= |subscribedTopics|
        invariant wire == old(wire) + Resubscriptions(subscribedTopics[..i])
      {
        var t := subscribedTopics[i];
        assert subscribedTopics[..i + 1][..i] == subscribedTopics[..i];
        wire := wire + [WSubscribe(t.topic, t.qos)];
        i := i + 1;
      }
      assert subscribedTopics[..i] == subscribedTopics;
    }

    /** `_on_connect`: on rc 0, mark connected, reset the delay and resubscribe; otherwise mark disconnected. */
    method OnConnect(rc: int)
      requires Valid()
      modifies this`isConnected, this`currentReconnectDelay, this`wire
      ensures Valid()
      ensures rc == 0 ==> isConnected && currentReconnectDelay == reconnectDelay
      ensures rc == 0 && hasClient ==> wire == old(wire) + Resubscriptions(subscribedTopics)
      ensures rc == 0 && !hasClient ==> wire == old(wire)
      ensures rc != 0 ==> !isConnected && currentReconnectDelay == old(currentReconnectDelay) && wire == old(wire)
    {
      if rc == 0 {
        isConnected := true;
        currentReconnectDelay := reconnectDelay;
        ResubscribeTopics();
      } else {
        isConnected := false;
      }
    }

    /** `_on_disconnect`: any rc marks the client disconnected; the subscription list is kept for the next connect. */
    method OnDisconnect(rc: int)
      modifies this`isConnected
      ensures !isConnected
    {
      isConnected := false;
    }

    /** `reset_reconnect_delay`. */
    method ResetReconnectDelay()
      modifies this`currentReconnectDelay
      ensures currentReconnectDelay == reconnectDelay
    {
      currentReconnectDelay := reconnectDelay;
    }

    /** `get_status`, restricted to the state this model keeps. */
    function GetStatus(): (s: Status)
      reads this`isConnected, this`subscribedTopics, this`loopRunning, this`loopType, this`currentReconnectDelay
      ensures |s.subscribedTopics| == |subscribedTopics|
      ensures forall t :: t in s.subscribedTopics <==> exists i :: 0 <= i < |subscribedTopics| && subscribedTopics[i].topic == t
    {
      var ts := Topics(subscribedTopics);
      assert forall t :: t in ts ==> exists i :: 0 <= i < |ts| && ts[i] == t;
      Status(isConnected, ts, loopRunning, loopType, currentReconnectDelay)
    }
  }
}
