/** The decision logic of `WatchConnectivityPlugin`: the host-call dispatch
    table, the four getters, the two commands and the two SDK listeners, each
    a pure function of the outcome the Wearable SDK resolved to. */
module Plugin {

  import opened Optional
  import opened Seqs
  import opened Wearable
  import opened Bridge

  const ChannelName := "watch_connectivity"
  /** Messages go out on the bare channel name ... */
  const MessagePath := ChannelName
  /** ... while data items live at the channel name with a leading slash. */
  const DataPath := "/" + ChannelName

  /** Companion apps whose presence means a watch is paired. */
  const WearOsApp := "com.google.android.wearable.app"
  const GalaxyWearableApp := "com.samsung.android.app.watchmanager"

  /** Host callbacks the plugin invokes. */
  const DidReceiveMessage := "didReceiveMessage"
  const DidReceiveApplicationContext := "didReceiveApplicationContext"

  /** The method names `onMethodCall` routes to a handler. */
  const HostMethods: set<string> := {
    "isSupported", "isPaired", "isReachable", "applicationContext",
    "receivedApplicationContexts", "sendMessage", "updateApplicationContext"
  }

  /** Everything a host call can observe: the `lateinit` local node (None
      while its asynchronous lookup has not completed), the installed
      packages, the resolved outcomes of the SDK tasks a handler starts,
      and the payload codec. */
  datatype Env<!A> = Env(
    localNode: Option<NodeId>,
    installedPackages: seq<string>,
    connectedNodes: Query<seq<Node>>,
    dataItems: Query<seq<DataItem>>,
    putDataItem: Query<DataItem>,
    codec: Codec<A>)

  // ---------------------------------------------------------------------
  // Item and event classification

  predicate IsCompanionApp(packageName: string) {
    packageName == WearOsApp || packageName == GalaxyWearableApp
  }

  predicate AtDataPath(item: DataItem) {
    item.path == DataPath
  }

  /** An item the local node put on this plugin's path. */
  predicate IsLocalItem(localId: NodeId, item: DataItem) {
    item.host == localId && item.path == DataPath
  }

  /** An item another node put on this plugin's path. */
  predicate IsReceivedItem(localId: NodeId, item: DataItem) {
    item.host != localId && item.path == DataPath
  }

  function LocalTo(localId: NodeId): DataItem -> bool {
    (item: DataItem) => IsLocalItem(localId, item)
  }

  function ReceivedBy(localId: NodeId): DataItem -> bool {
    (item: DataItem) => IsReceivedItem(localId, item)
  }

  predicate IsChange(event: DataEvent) {
    event.eventType == TypeChanged
  }

  /** A data event `onDataChanged` passes on to the host. */
  predicate IsForwardedEvent(localId: NodeId, event: DataEvent) {
    IsChange(event) && IsReceivedItem(localId, event.item)
  }

  function ForwardedBy(localId: NodeId): DataEvent -> bool {
    (event: DataEvent) => IsForwardedEvent(localId, event)
  }

  function PayloadOf(item: DataItem): Bytes {
    item.data
  }

  /** `i` is the position of the first local item, the one
      `applicationContext` reports. */
  ghost predicate FirstLocalAt(items: seq<DataItem>, localId: NodeId, i: int) {
    && 0 <= i < |items|
    && IsLocalItem(localId, items[i])
    && forall j :: 0 <= j < i ==> !IsLocalItem(localId, items[j])
  }

  // ---------------------------------------------------------------------
  // Getters

  /** `isPaired`: whether a companion app is installed; the host receives it
      as a boolean success. */
  function IsPaired(installedPackages: seq<string>): (r: bool)
    ensures r <==> WearOsApp in installedPackages || GalaxyWearableApp in installedPackages
  {
    Any(installedPackages, IsCompanionApp)
  }

  /** `isReachable`: whether any node is connected. */
  function IsReachable<A>(connectedNodes: Query<seq<Node>>): (r: MethodResult<A>)
    ensures r == Success(BoolValue(true)) <==> connectedNodes.Resolved? && connectedNodes.value != []
    ensures r == Success(BoolValue(false)) <==> connectedNodes == Resolved([])
    ensures r.Error? <==> connectedNodes.Failed?
    ensures connectedNodes.Failed? ==> r == ErrorOf(connectedNodes.error)
  {
    match connectedNodes
    case Failed(e) => ErrorOf(e)
    case Resolved(nodes) => Success(BoolValue(|nodes| > 0))
  }

  /** `applicationContext`: the content of the first item the local node put
      on the data path, or an empty map. Reading the unset local node throws,
      which happens as soon as there is an item to test. */
  function ApplicationContext<A>(localNode: Option<NodeId>, dataItems: Query<seq<DataItem>>, decode: Bytes -> A): (r: MethodResult<A>)
    ensures dataItems.Failed? ==> r == ErrorOf(dataItems.error)
    ensures dataItems == Resolved([]) ==> r == Success(EmptyMap)
    ensures dataItems.Resolved? && dataItems.value != [] && localNode.None? ==>
              r == Threw(UninitializedPropertyAccess)
    ensures dataItems.Resolved? && localNode.Some? ==>
              (r == Success(EmptyMap) <==>
                 forall i :: 0 <= i < |dataItems.value| ==> !IsLocalItem(localNode.value, dataItems.value[i]))
    ensures dataItems.Resolved? && localNode.Some? && r != Success(EmptyMap) ==>
              exists i :: FirstLocalAt(dataItems.value, localNode.value, i)
                       && r == Success(Object(decode(dataItems.value[i].data)))
  {
    match dataItems
    case Failed(e) => ErrorOf(e)
    case Resolved(items) =>
      if items == [] then Success(EmptyMap)
      else if localNode.None? then Threw(UninitializedPropertyAccess)
      else match FindFirst(items, LocalTo(localNode.value))
        case None => Success(EmptyMap)
        case Some(i) =>
          assert FirstLocalAt(items, localNode.value, i);
          Success(Object(decode(items[i].data)))
  }

  /** The decoded contents of the items other nodes put on the data path
      (`filter { … }.map { … }`). Order and multiplicity are fixed by
      `ReceivedContextsConcat` and `ReceivedContextsOfOne`. */
  function ReceivedContexts<A>(items: seq<DataItem>, localId: NodeId, decode: Bytes -> A): (r: seq<A>)
    ensures |r| <= |items|
    ensures forall k :: 0 <= k < |r| ==>
              exists i :: 0 <= i < |items| && IsReceivedItem(localId, items[i]) && r[k] == decode(items[i].data)
    ensures forall i :: 0 <= i < |items| && IsReceivedItem(localId, items[i]) ==> decode(items[i].data) in r
  {
    var received := Filter(items, ReceivedBy(localId));
    var contexts := Map(decode, Map(PayloadOf, received));
    assert forall k :: 0 <= k < |contexts| ==> contexts[k] == decode(received[k].data);
    assert forall i :: 0 <= i < |items| && IsReceivedItem(localId, items[i]) ==>
      exists k :: 0 <= k < |received| && received[k] == items[i];
    contexts
  }

  /** `receivedApplicationContexts`: the contents of all items other nodes
      put on the data path. */
  function ReceivedApplicationContexts<A>(localNode: Option<NodeId>, dataItems: Query<seq<DataItem>>, decode: Bytes -> A): (r: MethodResult<A>)
    ensures dataItems.Failed? ==> r == ErrorOf(dataItems.error)
    ensures dataItems == Resolved([]) ==> r == Success(Objects([]))
    ensures dataItems.Resolved? && dataItems.value != [] && localNode.None? ==>
              r == Threw(UninitializedPropertyAccess)
    ensures dataItems.Resolved? && localNode.Some? ==>
              r == Success(Objects(ReceivedContexts(dataItems.value, localNode.value, decode)))
    ensures dataItems.Resolved? && localNode.Some? ==>
              r.Success? && r.value.Objects? && |r.value.objs| <= |dataItems.value|
    ensures dataItems.Resolved? && localNode.Some? ==>
              forall k :: 0 <= k < |r.value.objs| ==>
                exists i :: 0 <= i < |dataItems.value|
                         && IsReceivedItem(localNode.value, dataItems.value[i])
                         && r.value.objs[k] == decode(dataItems.value[i].data)
    ensures dataItems.Resolved? && localNode.Some? ==>
              forall i :: 0 <= i < |dataItems.value| && IsReceivedItem(localNode.value, dataItems.value[i]) ==>
                decode(dataItems.value[i].data) in r.value.objs
  {
    match dataItems
    case Failed(e) => ErrorOf(e)
    case Resolved(items) =>
      if items == [] then Success(Objects([]))
      else if localNode.None? then Threw(UninitializedPropertyAccess)
      else Success(Objects(ReceivedContexts(items, localNode.value, decode)))
  }

  // ---------------------------------------------------------------------
  // Commands

  /** `sendMessage`: one send of the encoded arguments per connected node, on
      the message path, then an empty success. */
  function SendMessage<A>(arguments: A, codec: Codec<A>, connectedNodes: Query<seq<Node>>): (r: Outcome<A>)
    ensures connectedNodes.Failed? ==> r.actions == [] && r.result == ErrorOf(connectedNodes.error)
    ensures connectedNodes.Resolved? ==> r.result == Success(NullValue)
    ensures connectedNodes.Resolved? ==> |r.actions| == |connectedNodes.value|
    ensures connectedNodes.Resolved? ==>
              forall i :: 0 <= i < |r.actions| ==>
                r.actions[i] == Send(connectedNodes.value[i].id, MessagePath, codec.encode(arguments))
  {
    var messageData := codec.encode(arguments);
    match connectedNodes
    case Failed(e) => Outcome([], ErrorOf(e))
    case Resolved(nodes) =>
      Outcome(Map((n: Node) => Send(n.id, MessagePath, messageData), nodes), Success(NullValue))
  }

  /** `updateApplicationContext`: one put of the encoded arguments at the data
      path; the reply follows the put's outcome. */
  function UpdateApplicationContext<A>(arguments: A, codec: Codec<A>, putDataItem: Query<DataItem>): (r: Outcome<A>)
    ensures r.actions == [Put(DataPath, codec.encode(arguments))]
    ensures r.result == Success(NullValue) <==> putDataItem.Resolved?
    ensures putDataItem.Failed? ==> r.result == ErrorOf(putDataItem.error)
  {
    var eventData := codec.encode(arguments);
    var reply := match putDataItem
      case Resolved(_) => Success(NullValue)
      case Failed(e) => ErrorOf(e);
    Outcome([Put(DataPath, eventData)], reply)
  }

  // ---------------------------------------------------------------------
  // Dispatch

  /** `onMethodCall`: route the host's call by method name. */
  function OnMethodCall<A>(call: MethodCall<A>, env: Env<A>): (out: Outcome<A>)
    ensures out.result == NotImplemented <==> call.name !in HostMethods
    ensures call.name !in HostMethods ==> out.actions == []
    ensures call.name == "isSupported" ==> out == Outcome([], Success(BoolValue(true)))
    ensures call.name == "isPaired" ==> out == Outcome([], Success(BoolValue(IsPaired(env.installedPackages))))
    ensures call.name == "isReachable" ==> out == Outcome([], IsReachable(env.connectedNodes))
    ensures call.name == "applicationContext" ==>
              out == Outcome([], ApplicationContext(env.localNode, env.dataItems, env.codec.decode))
    ensures call.name == "receivedApplicationContexts" ==>
              out == Outcome([], ReceivedApplicationContexts(env.localNode, env.dataItems, env.codec.decode))
    ensures call.name == "sendMessage" ==>
              out == SendMessage(call.arguments, env.codec, env.connectedNodes)
    ensures call.name == "updateApplicationContext" ==>
              out == UpdateApplicationContext(call.arguments, env.codec, env.putDataItem)
    ensures out.actions != [] ==> call.name == "sendMessage" || call.name == "updateApplicationContext"
  {
    match call.name
    case "isSupported" => Outcome([], Success(BoolValue(true)))
    case "isPaired" => Outcome([], Success(BoolValue(IsPaired(env.installedPackages))))
    case "isReachable" => Outcome([], IsReachable(env.connectedNodes))
    case "applicationContext" => Outcome([], ApplicationContext(env.localNode, env.dataItems, env.codec.decode))
    case "receivedApplicationContexts" =>
      Outcome([], ReceivedApplicationContexts(env.localNode, env.dataItems, env.codec.decode))
    case "sendMessage" => SendMessage(call.arguments, env.codec, env.connectedNodes)
    case "updateApplicationContext" => UpdateApplicationContext(call.arguments, env.codec, env.putDataItem)
    case _ => Outcome([], NotImplemented)
  }

  // ---------------------------------------------------------------------
  // Listeners

  /** `onMessageReceived`: hand the decoded content to the host, whatever
      the message's path or sender. */
  function OnMessageReceived<A>(message: MessageEvent, decode: Bytes -> A): (r: seq<Action<A>>)
    ensures |r| == 1
    ensures r[0] == Invoke(DidReceiveMessage, decode(message.data))
  {
    [Invoke(DidReceiveMessage, decode(message.data))]
  }

  /** The listener applied to messages in arrival order. */
  function DeliverMessages<A>(messages: seq<MessageEvent>, decode: Bytes -> A): (r: seq<Action<A>>)
    ensures |r| == |messages|
    ensures forall i :: 0 <= i < |messages| ==> r[i] == Invoke(DidReceiveMessage, decode(messages[i].data))
  {
    if messages == [] then []
    else OnMessageReceived(messages[0], decode) + DeliverMessages(messages[1..], decode)
  }

  function NotifyContext<A>(decode: Bytes -> A): DataEvent -> Action<A> {
    (event: DataEvent) => Invoke(DidReceiveApplicationContext, decode(event.item.data))
  }

  /** The notifications for the events another node's change caused
      (`filter { … }.forEach { … }`). Order and multiplicity are fixed by
      `ContextNotificationsConcat` and `ContextNotificationsOfOne`. */
  function ContextNotifications<A>(events: seq<DataEvent>, localId: NodeId, decode: Bytes -> A): (r: seq<Action<A>>)
    ensures |r| <= |events|
    ensures forall k :: 0 <= k < |r| ==>
              exists i :: 0 <= i < |events|
                       && IsForwardedEvent(localId, events[i])
                       && r[k] == Invoke(DidReceiveApplicationContext, decode(events[i].item.data))
    ensures forall i :: 0 <= i < |events| && IsForwardedEvent(localId, events[i]) ==>
              Invoke(DidReceiveApplicationContext, decode(events[i].item.data)) in r
  {
    var forwarded := Filter(events, ForwardedBy(localId));
    var notifications := Map(NotifyContext(decode), forwarded);
    assert forall k :: 0 <= k < |notifications| ==>
      notifications[k] == Invoke(DidReceiveApplicationContext, decode(forwarded[k].item.data));
    assert forall i :: 0 <= i < |events| && IsForwardedEvent(localId, events[i]) ==>
      exists k :: 0 <= k < |forwarded| && forwarded[k] == events[i];
    notifications
  }

  /** `onDataChanged`: notify the host of every remote change on the data
      path. The filter runs over the whole buffer before any notification, and
      it reads the local node only for `TYPE_CHANGED` events. */
  function OnDataChanged<A>(localNode: Option<NodeId>, events: seq<DataEvent>, decode: Bytes -> A): (r: Delivery<A>)
    ensures localNode.None? ==>
              (r.Aborted? <==> exists i :: 0 <= i < |events| && events[i].eventType == TypeChanged)
    ensures r.Aborted? ==> r.exception == UninitializedPropertyAccess
    ensures localNode.None? && r.Delivered? ==> r.invocations == []
    ensures localNode.Some? ==> r == Delivered(ContextNotifications(events, localNode.value, decode))
    ensures localNode.Some? ==> r.Delivered? && |r.invocations| <= |events|
    ensures localNode.Some? ==>
              forall k :: 0 <= k < |r.invocations| ==>
                exists i :: 0 <= i < |events|
                         && IsForwardedEvent(localNode.value, events[i])
                         && r.invocations[k] == Invoke(DidReceiveApplicationContext, decode(events[i].item.data))
    ensures localNode.Some? ==>
              forall i :: 0 <= i < |events| && IsForwardedEvent(localNode.value, events[i]) ==>
                Invoke(DidReceiveApplicationContext, decode(events[i].item.data)) in r.invocations
  {
    if localNode.None? then
      if Any(events, IsChange) then Aborted(UninitializedPropertyAccess) else Delivered([])
    else
      Delivered(ContextNotifications(events, localNode.value, decode))
  }
}
