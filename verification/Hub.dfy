/**
 The WebSocket hub: clients by id, an index from topic to subscribers that must agree with
 a scan of all clients, and bounded queues that Publish never blocks on.
 */
module Hub {

  const QUEUE: nat := 64

  class Client {
    const id: string
    const topics: set<string>
    var send: seq<string>        // the buffered channel
    var closed: bool

    constructor (id: string, topics: set<string>)
      ensures this.id == id && this.topics == topics && send == [] && !closed
    {
      this.id := id;
      this.topics := topics;
      send := [];
      closed := false;
    }

    /** One select of Publish: queued if there is room, and perhaps not when the client is closed. */
    method Offer(payload: string)
      requires |send| <= QUEUE
      modifies this`send
      ensures Delivered(this, old(send), payload) && |send| <= QUEUE
    {
      var pickSend: bool := *;
      if |send| < QUEUE && (!closed || pickSend) {
        send := send + [payload];
      }
    }

    method Close()
      modifies this`closed
      ensures closed
    {
      closed := true;
    }
  }

  type Index = map<string, map<string, Client>>

  function Bucket(index: Index, topic: string): map<string, Client> {
    if topic in index then index[topic] else map[]
  }

  /** Adds a client to a topic's bucket, creating the bucket if there is none. */
  function Subscribed(index: Index, topic: string, c: Client): Index {
    index[topic := Bucket(index, topic)[c.id := c]]
  }

  /** Takes a client out of a topic's bucket and the bucket away with its last client. */
  function Unsubscribed(index: Index, topic: string, id: string): Index {
    if topic !in index then index
    else
      var subs := index[topic] - {id};
      if |subs| == 0 then index - {topic} else index[topic := subs]
  }

  ghost predicate NoEmptyBucket(index: Index) {
    forall t :: t in index ==> index[t] != map[]
  }

  lemma SubscribedBucket(index: Index, topic: string, c: Client)
    requires NoEmptyBucket(index)
    ensures NoEmptyBucket(Subscribed(index, topic, c))
    ensures Bucket(Subscribed(index, topic, c), topic) == Bucket(index, topic)[c.id := c]
    ensures forall t :: t != topic ==> Bucket(Subscribed(index, topic, c), t) == Bucket(index, t)
  {
    assert c.id in Bucket(index, topic)[c.id := c];
  }

  lemma UnsubscribedBucket(index: Index, topic: string, id: string)
    requires NoEmptyBucket(index)
    ensures NoEmptyBucket(Unsubscribed(index, topic, id))
    ensures Bucket(Unsubscribed(index, topic, id), topic) == Bucket(index, topic) - {id}
    ensures forall t :: t != topic ==> Bucket(Unsubscribed(index, topic, id), t) == Bucket(index, t)
  {
    if topic in index && |index[topic] - {id}| == 0 {
      assert index[topic] - {id} == map[];
    }
  }

  /** The registered clients subscribed to a topic, found by looking at every one of them. */
  function Scan(byID: map<string, Client>, topic: string): map<string, Client> {
    map id | id in byID && topic in byID[id].topics :: byID[id]
  }

  ghost predicate IndexAgrees(index: Index, byID: map<string, Client>) {
    forall t :: Bucket(index, t) == Scan(byID, t)
  }

  /** `index` is `base` with the client added to the buckets of `topics`. */
  ghost predicate AddedTo(base: Index, index: Index, topics: set<string>, c: Client) {
    forall t :: Bucket(index, t) == if t in topics then Bucket(base, t)[c.id := c] else Bucket(base, t)
  }

  ghost predicate RemovedFrom(base: Index, index: Index, topics: set<string>, id: string) {
    forall t :: Bucket(index, t) == if t in topics then Bucket(base, t) - {id} else Bucket(base, t)
  }

  lemma AddOne(base: Index, index: Index, topics: set<string>, c: Client, topic: string)
    requires AddedTo(base, index, topics, c) && topic !in topics && NoEmptyBucket(index)
    ensures AddedTo(base, Subscribed(index, topic, c), topics + {topic}, c)
    ensures NoEmptyBucket(Subscribed(index, topic, c))
  {
    SubscribedBucket(index, topic, c);
  }

  lemma RemoveOne(base: Index, index: Index, topics: set<string>, id: string, topic: string)
    requires RemovedFrom(base, index, topics, id) && topic !in topics && NoEmptyBucket(index)
    ensures RemovedFrom(base, Unsubscribed(index, topic, id), topics + {topic}, id)
    ensures NoEmptyBucket(Unsubscribed(index, topic, id))
  {
    UnsubscribedBucket(index, topic, id);
  }

  lemma AddedAll(base: Index, index: Index, byID: map<string, Client>, c: Client)
    requires IndexAgrees(base, byID) && c.id !in byID && AddedTo(base, index, c.topics, c)
    ensures IndexAgrees(index, byID[c.id := c])
  {
    forall t ensures Bucket(index, t) == Scan(byID[c.id := c], t) {
      assert Bucket(base, t) == Scan(byID, t);
    }
  }

  lemma RemovedAll(base: Index, index: Index, byID: map<string, Client>, c: Client)
    requires IndexAgrees(base, byID) && (c.id in byID ==> byID[c.id] == c)
    requires RemovedFrom(base, index, c.topics, c.id)
    ensures IndexAgrees(index, byID - {c.id})
  {
    forall t ensures Bucket(index, t) == Scan(byID - {c.id}, t) {
      assert Bucket(base, t) == Scan(byID, t);
    }
  }

  lemma Removal(byID: map<string, Client>, id: string)
    ensures |byID - {id}| == |byID| - (if id in byID then 1 else 0)
  {
    if id in byID {
      assert byID.Keys == (byID - {id}).Keys + {id};
    } else {
      assert byID - {id} == byID;
    }
  }

  class Hub {
    var byID: map<string, Client>
    var byTopic: Index
    var connected: int           // the gauge

    /** The index is the naive scan, topic by topic, and keeps no empty bucket. */
    ghost predicate Valid()
      reads this
    {
      && (forall id :: id in byID ==> byID[id].id == id)
      && IndexAgrees(byTopic, byID)
      && NoEmptyBucket(byTopic)
    }

    constructor ()
      ensures Valid() && byID == map[] && connected == 0
    {
      byID := map[];
      byTopic := map[];
      connected := 0;
    }

    /** Ids are fresh UUIDs, so no registered client has this one. */
    method Register(c: Client)
      requires Valid() && c.id !in byID
      modifies this
      ensures Valid() && byID == old(byID)[c.id := c]
      ensures connected - |byID| == old(connected - |byID|)
    {
      byID := byID[c.id := c];
      var todo := c.topics;
      while todo != {}
        invariant todo <= c.topics && byID == old(byID)[c.id := c] && connected == old(connected)
        invariant AddedTo(old(byTopic), byTopic, c.topics - todo, c) && NoEmptyBucket(byTopic)
        decreases |todo|
      {
        var t :| t in todo;
        AddOne(old(byTopic), byTopic, c.topics - todo, c, t);
        assert c.topics - (todo - {t}) == (c.topics - todo) + {t};
        byTopic := Subscribed(byTopic, t, c);
        todo := todo - {t};
      }
      assert c.topics - todo == c.topics;
      AddedAll(old(byTopic), byTopic, old(byID), c);
      connected := connected + 1;
    }

    /** The locked part of Unregister. */
    method Forget(c: Client)
      requires Valid() && (c.id in byID ==> byID[c.id] == c)
      modifies this`byID, this`byTopic
      ensures Valid() && byID == old(byID) - {c.id}
    {
      byID := byID - {c.id};
      var todo := c.topics;
      while todo != {}
        invariant todo <= c.topics && byID == old(byID) - {c.id}
        invariant RemovedFrom(old(byTopic), byTopic, c.topics - todo, c.id) && NoEmptyBucket(byTopic)
        decreases |todo|
      {
        var t :| t in todo;
        RemoveOne(old(byTopic), byTopic, c.topics - todo, c.id, t);
        assert c.topics - (todo - {t}) == (c.topics - todo) + {t};
        byTopic := Unsubscribed(byTopic, t, c.id);
        todo := todo - {t};
      }
      assert c.topics - todo == c.topics;
      RemovedAll(old(byTopic), byTopic, old(byID), c);
    }

    /**
     Closes the client and forgets it. Unregistering twice changes nothing more, but for the gauge: it keeps pace
     with the client count exactly when the client was still registered.
     */
    method Unregister(c: Client)
      requires Valid() && (c.id in byID ==> byID[c.id] == c)
      modifies this, c`closed
      ensures Valid() && byID == old(byID) - {c.id} && c.closed
      ensures connected - |byID| == old(connected - |byID|) - (if c.id in old(byID) then 0 else 1)
    {
      Removal(byID, c.id);
      Forget(c);
      c.Close();
      connected := connected - 1;
    }

    /**
     Every open subscriber gets one copy unless its queue is full; a closed one may get one
     too, since select picks among ready cases at random; nobody else gets anything.
     */
    method Publish(topic: string, payload: string)
      requires Valid()
      requires forall id :: id in byID ==> |byID[id].send| <= QUEUE
      modifies set id | id in byID :: byID[id]`send
      ensures Valid() && byID == old(byID) && connected == old(connected)
      ensures forall id :: id in byID && topic !in byID[id].topics ==> byID[id].send == old(byID[id].send)
      ensures forall id :: id in byID && topic in byID[id].topics ==> Delivered(byID[id], old(byID[id].send), payload)
      ensures forall id :: id in byID ==> |byID[id].send| <= QUEUE
    {
      var clients := Bucket(byTopic, topic);
      assert clients == Scan(byID, topic);
      var todo := clients.Keys;
      while todo != {}
        invariant todo <= clients.Keys
        invariant forall id :: id in byID && (id !in clients || id in todo) ==>
                    byID[id].send == old(byID[id].send)
        invariant forall id :: id in clients.Keys - todo ==>
                    Delivered(byID[id], old(byID[id].send), payload)
        invariant forall id :: id in byID ==> |byID[id].send| <= QUEUE
        decreases |todo|
      {
        var id :| id in todo;
        var c := clients[id];
        c.Offer(payload);
        todo := todo - {id};
      }
      assert forall id :: id in byID && topic in byID[id].topics ==> id in clients;
    }

    method ClientCount() returns (n: nat)
      ensures n == |byID|
    {
      n := |byID|;
    }
  }

  /** What one select of Publish may do to a client's queue. */
  ghost predicate Delivered(c: Client, before: seq<string>, payload: string)
    reads c
  {
    var sent := before + [payload];
    if |before| >= 64 then c.send == before
    else if c.closed then c.send == before || c.send == sent
    else c.send == sent
  }
}
