/** Properties that relate several handlers of the plugin, or one handler
    across inputs: the local/received split of the data items, reachability
    against message fan-out, order preservation of the listeners, and the
    independence of `isPaired` from connectivity. */
module PluginProperties {

  import opened Optional
  import opened Seqs
  import opened Wearable
  import opened Bridge
  import opened Plugin

  /** Every item on the data path is either the local node's or a received
      one, never both; so the two getters together account for exactly the
      items on the data path. */
  lemma ContextsPartitionDataPath(items: seq<DataItem>, localId: NodeId)
    ensures forall i :: 0 <= i < |items| && AtDataPath(items[i]) ==>
              IsLocalItem(localId, items[i]) != IsReceivedItem(localId, items[i])
    ensures forall i :: 0 <= i < |items| && !AtDataPath(items[i]) ==>
              !IsLocalItem(localId, items[i]) && !IsReceivedItem(localId, items[i])
    ensures |Filter(items, LocalTo(localId))| + |Filter(items, ReceivedBy(localId))|
            == |Filter(items, AtDataPath)|
  {
    FilterDisjointCount(items, LocalTo(localId), ReceivedBy(localId), AtDataPath);
  }

  /** The item `applicationContext` reports is never among the received
      ones, and no received item comes from the local node. */
  lemma LocalContextIsNotReceived<A>(items: seq<DataItem>, localId: NodeId, decode: Bytes -> A, i: int)
    requires FirstLocalAt(items, localId, i)
    ensures ApplicationContext(Some(localId), Resolved(items), decode) == Success(Object(decode(items[i].data)))
    ensures items[i] !in Filter(items, ReceivedBy(localId))
    ensures forall k :: 0 <= k < |Filter(items, ReceivedBy(localId))| ==>
              Filter(items, ReceivedBy(localId))[k].host != localId
  {
    var r := ApplicationContext(Some(localId), Resolved(items), decode);
    assert r != Success(EmptyMap);
    var j :| FirstLocalAt(items, localId, j) && r == Success(Object(decode(items[j].data)));
    assert j == i;
  }

  /** `receivedApplicationContexts` over a concatenation is the concatenation
      of its results: with `ReceivedContextsOfOne`, it keeps exactly the
      received items, in their original order. */
  lemma ReceivedContextsConcat<A>(a: seq<DataItem>, b: seq<DataItem>, localId: NodeId, decode: Bytes -> A)
    ensures ReceivedContexts(a + b, localId, decode)
            == ReceivedContexts(a, localId, decode) + ReceivedContexts(b, localId, decode)
  {
    var fa, fb := Filter(a, ReceivedBy(localId)), Filter(b, ReceivedBy(localId));
    FilterConcat(a, b, ReceivedBy(localId));
    MapConcat(PayloadOf, fa, fb);
    MapConcat(decode, Map(PayloadOf, fa), Map(PayloadOf, fb));
  }

  /** The same stated of the host call itself: the list a received-contexts
      reply carries for `a + b` is the one for `a` followed by the one for `b`. */
  lemma ReceivedApplicationContextsConcat<A>(a: seq<DataItem>, b: seq<DataItem>, localId: NodeId, decode: Bytes -> A)
    ensures ReceivedApplicationContexts(Some(localId), Resolved(a + b), decode).value.objs
            == ReceivedApplicationContexts(Some(localId), Resolved(a), decode).value.objs
               + ReceivedApplicationContexts(Some(localId), Resolved(b), decode).value.objs
  {
    ReceivedContextsConcat(a, b, localId, decode);
  }

  lemma ReceivedContextsOfOne<A>(item: DataItem, localId: NodeId, decode: Bytes -> A)
    ensures IsReceivedItem(localId, item) ==> ReceivedContexts([item], localId, decode) == [decode(item.data)]
    ensures !IsReceivedItem(localId, item) ==> ReceivedContexts([item], localId, decode) == []
  {
  }

  /** The same for the data-change listener: the buffer's notifications are
      those of its parts, in order ... */
  lemma ContextNotificationsConcat<A>(a: seq<DataEvent>, b: seq<DataEvent>, localId: NodeId, decode: Bytes -> A)
    ensures ContextNotifications(a + b, localId, decode)
            == ContextNotifications(a, localId, decode) + ContextNotifications(b, localId, decode)
  {
    FilterConcat(a, b, ForwardedBy(localId));
    MapConcat(NotifyContext(decode), Filter(a, ForwardedBy(localId)), Filter(b, ForwardedBy(localId)));
  }

  /** The same stated of the listener itself. */
  lemma OnDataChangedConcat<A>(a: seq<DataEvent>, b: seq<DataEvent>, localId: NodeId, decode: Bytes -> A)
    ensures OnDataChanged(Some(localId), a + b, decode).invocations
            == OnDataChanged(Some(localId), a, decode).invocations
               + OnDataChanged(Some(localId), b, decode).invocations
  {
    ContextNotificationsConcat(a, b, localId, decode);
  }

  /** ... and a single event is forwarded exactly when it is a remote change
      on the data path. */
  lemma ContextNotificationsOfOne<A>(event: DataEvent, localId: NodeId, decode: Bytes -> A)
    ensures OnDataChanged(Some(localId), [event], decode)
            == Delivered(if event.eventType == TypeChanged && event.item.host != localId && event.item.path == DataPath
                         then [Invoke(DidReceiveApplicationContext, decode(event.item.data))]
                         else [])
  {
  }

  /** `isReachable` says true exactly when `sendMessage` would send
      something, and both fail on the same node-query failure. */
  lemma ReachableIffMessageSent<A>(arguments: A, codec: Codec<A>, connectedNodes: Query<seq<Node>>)
    ensures IsReachable<A>(connectedNodes) == Success(BoolValue(true))
            <==> SendMessage(arguments, codec, connectedNodes).actions != []
    ensures IsReachable<A>(connectedNodes) == Success(BoolValue(false))
            <==> SendMessage(arguments, codec, connectedNodes).result == Success(NullValue)
                 && SendMessage(arguments, codec, connectedNodes).actions == []
    ensures IsReachable<A>(connectedNodes).Error?
            ==> IsReachable<A>(connectedNodes) == SendMessage(arguments, codec, connectedNodes).result
  {
  }

  /** One send per entry of the connected-node list: send i goes to entry i,
      and all sends carry the same payload. (A node id listed twice would be
      sent to twice.) */
  lemma MessageSentOncePerListedNode<A>(arguments: A, codec: Codec<A>, nodes: seq<Node>, i: int)
    requires 0 <= i < |nodes|
    ensures var sends := SendMessage(arguments, codec, Resolved(nodes)).actions;
            && |sends| == |nodes|
            && sends[i] == Send(nodes[i].id, MessagePath, codec.encode(arguments))
            && forall k :: 0 <= k < |sends| ==> sends[k].Send? && sends[k].data == sends[i].data
  {
  }

  /** `isPaired` does not look at the connected nodes. */
  lemma IsPairedIgnoresConnectivity<A>(arguments: A, env: Env<A>, connectedNodes: Query<seq<Node>>)
    ensures OnMethodCall(MethodCall("isPaired", arguments), env)
            == OnMethodCall(MethodCall("isPaired", arguments), env.(connectedNodes := connectedNodes))
  {
  }

  /** Inbound messages are not filtered by path or sender. */
  lemma MessagesIgnorePathAndSender<A>(message: MessageEvent, path: string, sender: NodeId, decode: Bytes -> A)
    ensures OnMessageReceived(message, decode)
            == OnMessageReceived(message.(path := path, sourceNodeId := sender), decode)
    ensures |OnMessageReceived(message, decode)| == 1
  {
  }

  /** The peer-context scenario: node A published `payload`; A sees it as
      its own context and receives nothing, node B receives exactly it. */
  lemma PeerContextScenario<A>(payload: Bytes, decode: Bytes -> A)
    ensures var items := [DataItem("A", DataPath, payload)];
            && ApplicationContext(Some("A"), Resolved(items), decode) == Success(Object(decode(payload)))
            && ReceivedApplicationContexts(Some("A"), Resolved(items), decode) == Success(Objects([]))
            && ReceivedApplicationContexts(Some("B"), Resolved(items), decode) == Success(Objects([decode(payload)]))
            && ApplicationContext(Some("B"), Resolved(items), decode) == Success(EmptyMap)
  {
    var items := [DataItem("A", DataPath, payload)];
    assert FirstLocalAt(items, "A", 0);
    assert ReceivedContexts(items, "A", decode) == [];
    assert ReceivedContexts(items, "B", decode) == [decode(payload)];
  }

  /** What `updateApplicationContext` puts is what the getters read back:
      once the data layer holds the put item under the local node's id, and
      no other local item precedes it, the local node reads it as its own
      context and any other node receives it. */
  lemma PublishedContextIsReadBack<A>(arguments: A, codec: Codec<A>, putDataItem: Query<DataItem>,
                                      localId: NodeId, peerId: NodeId,
                                      before: seq<DataItem>, after: seq<DataItem>)
    requires peerId != localId
    requires forall i :: 0 <= i < |before| ==> !IsLocalItem(localId, before[i])
    ensures var put := UpdateApplicationContext(arguments, codec, putDataItem).actions[0];
            var items := before + [DataItem(localId, put.path, put.data)] + after;
            && ApplicationContext(Some(localId), Resolved(items), codec.decode)
               == Success(Object(codec.decode(codec.encode(arguments))))
            && codec.decode(codec.encode(arguments))
               in ReceivedApplicationContexts(Some(peerId), Resolved(items), codec.decode).value.objs
  {
    var put := UpdateApplicationContext(arguments, codec, putDataItem).actions[0];
    var items := before + [DataItem(localId, put.path, put.data)] + after;
    assert items[|before|] == DataItem(localId, DataPath, codec.encode(arguments));
    assert FirstLocalAt(items, localId, |before|);
    LocalContextIsNotReceived(items, localId, codec.decode, |before|);
    assert IsReceivedItem(peerId, items[|before|]);
  }
}
