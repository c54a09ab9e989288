# watch_connectivity (Android) — a Dafny model of the plugin's decision logic

`WatchConnectivityPlugin` connects a Flutter app's method channel
`watch_connectivity` to the Wearable data layer. A host call (`isSupported`,
`isPaired`, `isReachable`, `applicationContext`,
`receivedApplicationContexts`, `sendMessage`, `updateApplicationContext`) is
routed by name. Each handler starts a Wearable SDK task. When the task
resolves, the handler picks, filters or fans out what came back. Two SDK
listeners (`onMessageReceived`, `onDataChanged`) pass inbound traffic to the
host through `channel.invokeMethod`.

The model makes each handler a pure function. Its inputs are the outcome the
SDK task resolved to: `Query<T> = Resolved(value) | Failed(exception)`. Its
outputs are the actions it issues and how the host call ends:

- `Send(node, path, bytes)` stands for `messageClient.sendMessage`.
- `Put(path, bytes)` stands for `dataClient.putDataItem`.
- `Invoke(method, value)` stands for `channel.invokeMethod`.
- A host call ends as `Success(value)`, `Error(code, message)`,
  `NotImplemented`, or `Threw(exception)`. `Threw` means an uncaught exception
  escaped a task listener. Those listeners, and the data listener, run on the
  Android main thread. There, an uncaught exception normally ends the app
  process; the missing reply is the least of it.

Files:

- `optional.dfy`: module `Optional`, Kotlin's nullable values.
- `seqs.dfy`: module `Seqs`, the list operations the handlers use. These are
  `filter`, `map`, `firstOrNull` and `any`. Each has a contract that does
  not depend on how it is defined.
- `wearable.dfy`: module `Wearable`, the SDK-side types. These are nodes, data
  items `(host, path, data)`, data events, message events, exceptions and
  task outcomes. It also holds `TYPE_CHANGED = 1` and `TYPE_DELETED = 2`.
- `bridge.dfy`: module `Bridge`, the Flutter-side types and the reply for a
  failed task. That reply has code `message ?: ""`.
- `plugin.dfy`: module `Plugin`, the dispatch table, the handlers and the
  listeners.
- `properties.dfy`: module `PluginProperties`, properties that relate several
  handlers to each other.

Source details the model keeps as written:

- Messages are sent on path `watch_connectivity`, with no slash. Data items
  use `/watch_connectivity`.
- Inbound messages are forwarded whatever their path or sender.
- `applicationContext` replies with an empty map both when no local item
  exists (line 130) and when the local item's content is itself an empty map
  (line 127). The model keeps the two apart: `EmptyMap` and `Object(v)` are
  different constructors. So "the empty map iff no item is local" in its
  contract holds for the model's replies. At the host, the two replies can
  look the same.
- `localNode` is a `lateinit` property set by an asynchronous lookup. The
  model gives it as `Option<NodeId>`. Reading it before it is set throws
  `UninitializedPropertyAccessException`. The model follows Kotlin's
  evaluation order for when that read happens:
  - `applicationContext` and `receivedApplicationContexts` read it only when
    there is at least one item to test. With no items they succeed.
  - `onDataChanged` reads it only for `TYPE_CHANGED` events, because `&&`
    short-circuits on the type test first.
  - `filter` runs over the whole buffer before `forEach` starts. So when
    `onDataChanged` throws, no notification has gone out.

Behaviour a reader might expect, which the code does not have:

- There is no readiness gate that answers "not ready" while the local node
  is unknown. The code throws when it reads the unset property.
- Inbound messages are not filtered by path.
- A payload that fails to decode is not caught, dropped and logged (see Left
  out).

## Model

| member | source | states |
|---|---|---|
| Seqs.Filter | watch_connectivity/android/src/main/kotlin/dev/rexios/watch_connectivity/WatchConnectivityPlugin.kt:143-147 | Kotlin `filter`: the result is no longer than the input, holds only matching input elements, holds every matching element, and is a sub-multiset of the input |
| Seqs.Map | watch_connectivity/android/src/main/kotlin/dev/rexios/watch_connectivity/WatchConnectivityPlugin.kt:147 | Kotlin `map`: same length, and element i of the result is f of input element i |
| Seqs.FindFirst | watch_connectivity/android/src/main/kotlin/dev/rexios/watch_connectivity/WatchConnectivityPlugin.kt:119-123 | Kotlin `firstOrNull`: a found position matches and every earlier one does not; no position means nothing matches |
| Seqs.Any | watch_connectivity/android/src/main/kotlin/dev/rexios/watch_connectivity/WatchConnectivityPlugin.kt:91-92 | Kotlin `any`: true iff some element matches |
| Seqs.FilterConcat | watch_connectivity/android/src/main/kotlin/dev/rexios/watch_connectivity/WatchConnectivityPlugin.kt:143-147 | filtering a concatenation gives the concatenation of the filtered parts, so filtering keeps input order |
| Bridge.ErrorOf | watch_connectivity/android/src/main/kotlin/dev/rexios/watch_connectivity/WatchConnectivityPlugin.kt:109 | a failed task gives an error reply; its code is the exception message, or "" when the message is null, and its message is the localized message |
| Plugin.OnMethodCall | watch_connectivity/android/src/main/kotlin/dev/rexios/watch_connectivity/WatchConnectivityPlugin.kt:57-73 | the reply is NotImplemented iff the name is not one of the seven; `isSupported` answers true and issues no action; each other listed name gives exactly its handler's outcome; only `sendMessage` and `updateApplicationContext` issue actions |
| Plugin.IsPaired | watch_connectivity/android/src/main/kotlin/dev/rexios/watch_connectivity/WatchConnectivityPlugin.kt:88-98 | the boolean the host receives: true iff the Wear OS app or the Galaxy Wearable app is among the installed packages |
| Plugin.IsReachable | watch_connectivity/android/src/main/kotlin/dev/rexios/watch_connectivity/WatchConnectivityPlugin.kt:100-111 | success(true) iff the node query resolved to a non-empty list; an empty list gives success(false), not an error; an error happens iff the query failed, and it carries that exception |
| Plugin.ApplicationContext | watch_connectivity/android/src/main/kotlin/dev/rexios/watch_connectivity/WatchConnectivityPlugin.kt:114-136 | a failed query gives an error; no items gives the empty map; items with the local node unset give a throw; otherwise the empty map iff no item is local, and else the decoded data of the first local item at `/watch_connectivity` |
| Plugin.ReceivedApplicationContexts | watch_connectivity/android/src/main/kotlin/dev/rexios/watch_connectivity/WatchConnectivityPlugin.kt:139-153 | a failed query gives an error; items with the local node unset give a throw; otherwise exactly the `ReceivedContexts` of the items (so input order is kept, by `ReceivedContextsConcat`), a list no longer than the items, each entry decoded from a non-local item at `/watch_connectivity`, with every such item's content present |
| Plugin.SendMessage | watch_connectivity/android/src/main/kotlin/dev/rexios/watch_connectivity/WatchConnectivityPlugin.kt:155-167 | on a resolved node list, exactly one send per node, in list order, on path `watch_connectivity`, all with the one encoded payload, then success(null), also for zero nodes; on a failed query, no send and an error |
| Plugin.UpdateApplicationContext | watch_connectivity/android/src/main/kotlin/dev/rexios/watch_connectivity/WatchConnectivityPlugin.kt:170-184 | exactly one put of the encoded arguments at `/watch_connectivity`; success(null) iff the put succeeded, otherwise that put's error |
| Plugin.OnMessageReceived | watch_connectivity/android/src/main/kotlin/dev/rexios/watch_connectivity/WatchConnectivityPlugin.kt:186-191 | for any message, whatever its path or sender, exactly one invocation: `didReceiveMessage` with the message's decoded data |
| Plugin.ReceivedContexts | watch_connectivity/android/src/main/kotlin/dev/rexios/watch_connectivity/WatchConnectivityPlugin.kt:143-147 | the `filter`-then-`map` of received items: no longer than the items, each entry decoded from a non-local item at `/watch_connectivity`, every such item's content present; order and multiplicity fixed by `ReceivedContextsConcat` and `ReceivedContextsOfOne` |
| Plugin.ContextNotifications | watch_connectivity/android/src/main/kotlin/dev/rexios/watch_connectivity/WatchConnectivityPlugin.kt:196-207 | the `filter`-then-`forEach` of data events: no more invocations than events, each a `didReceiveApplicationContext` for a remote TYPE_CHANGED event at `/watch_connectivity`, every such event notified; order fixed by `ContextNotificationsConcat` and `ContextNotificationsOfOne` |
| Plugin.DeliverMessages | watch_connectivity/android/src/main/kotlin/dev/rexios/watch_connectivity/WatchConnectivityPlugin.kt:186-191 | across a stream of inbound messages, one `didReceiveMessage` invocation per message, in arrival order, carrying that message's decoded data |
| Plugin.OnDataChanged | watch_connectivity/android/src/main/kotlin/dev/rexios/watch_connectivity/WatchConnectivityPlugin.kt:194-208 | local node unset: a throw iff some event is TYPE_CHANGED, and nothing is invoked otherwise; local node set: exactly the `ContextNotifications` of the buffer (so event order is kept, by `ContextNotificationsConcat`); each invocation is `didReceiveApplicationContext` with the data of a remote TYPE_CHANGED event at `/watch_connectivity`, and every such event is notified |
| PluginProperties.ContextsPartitionDataPath | watch_connectivity/android/src/main/kotlin/dev/rexios/watch_connectivity/WatchConnectivityPlugin.kt:122-146 | every item at `/watch_connectivity` is either local or received, never both; items elsewhere are neither; the local and received counts add up to the count of items at the path |
| PluginProperties.LocalContextIsNotReceived | watch_connectivity/android/src/main/kotlin/dev/rexios/watch_connectivity/WatchConnectivityPlugin.kt:119-147 | `applicationContext` reports the first local item; that item is never among the received items; no received item has the local host |
| PluginProperties.ReceivedContextsConcat | watch_connectivity/android/src/main/kotlin/dev/rexios/watch_connectivity/WatchConnectivityPlugin.kt:143-147 | received contexts of a concatenation are the concatenation of the received contexts, so input order is kept |
| PluginProperties.ReceivedApplicationContextsConcat | watch_connectivity/android/src/main/kotlin/dev/rexios/watch_connectivity/WatchConnectivityPlugin.kt:141-152 | the list the `receivedApplicationContexts` reply carries for items `a + b` is its list for `a` followed by its list for `b` |
| PluginProperties.ReceivedContextsOfOne | watch_connectivity/android/src/main/kotlin/dev/rexios/watch_connectivity/WatchConnectivityPlugin.kt:146-147 | one item contributes its decoded data iff its host is not local and its path is `/watch_connectivity`, and nothing otherwise |
| PluginProperties.ContextNotificationsConcat | watch_connectivity/android/src/main/kotlin/dev/rexios/watch_connectivity/WatchConnectivityPlugin.kt:196-207 | the notifications for a concatenated event buffer are the notifications of its parts, in order |
| PluginProperties.OnDataChangedConcat | watch_connectivity/android/src/main/kotlin/dev/rexios/watch_connectivity/WatchConnectivityPlugin.kt:194-208 | the invocations `onDataChanged` makes for buffer `a + b` are its invocations for `a` followed by those for `b` |
| PluginProperties.ContextNotificationsOfOne | watch_connectivity/android/src/main/kotlin/dev/rexios/watch_connectivity/WatchConnectivityPlugin.kt:197-206 | a single event is notified iff it is TYPE_CHANGED, from another host, at `/watch_connectivity`; any other event gives no notification |
| PluginProperties.ReachableIffMessageSent | watch_connectivity/android/src/main/kotlin/dev/rexios/watch_connectivity/WatchConnectivityPlugin.kt:102-165 | `isReachable` is true iff `sendMessage` issues at least one send; it is false iff `sendMessage` succeeds with no send; on a failed query both give the same error |
| PluginProperties.MessageSentOncePerListedNode | watch_connectivity/android/src/main/kotlin/dev/rexios/watch_connectivity/WatchConnectivityPlugin.kt:159-161 | one send per entry of the node list: send i goes to entry i on path `watch_connectivity`, and every send carries the same payload (a node id listed twice is sent to twice) |
| PluginProperties.IsPairedIgnoresConnectivity | watch_connectivity/android/src/main/kotlin/dev/rexios/watch_connectivity/WatchConnectivityPlugin.kt:88-98 | the `isPaired` outcome is the same for every connected-node outcome |
| PluginProperties.MessagesIgnorePathAndSender | watch_connectivity/android/src/main/kotlin/dev/rexios/watch_connectivity/WatchConnectivityPlugin.kt:186-191 | an inbound message gives exactly one invocation, and it does not depend on the message's path or sender |
| PluginProperties.PublishedContextIsReadBack | watch_connectivity/android/src/main/kotlin/dev/rexios/watch_connectivity/WatchConnectivityPlugin.kt:119-175 | the item `updateApplicationContext` puts (path `/watch_connectivity`, encoded arguments), once stored under the local id with no local item before it, is what `applicationContext` returns on that node and is among what any other node receives |
| PluginProperties.PeerContextScenario | watch_connectivity/android/src/main/kotlin/dev/rexios/watch_connectivity/WatchConnectivityPlugin.kt:114-153 | node A published a context; A reads it back as its own and receives nothing; B receives exactly it and has no own context |

## Left out

- `objectToBytes` / `objectFromBytes` (Java object serialisation) are foreign
  library code. They appear as the uninterpreted functions of a `Codec`, and
  no encode/decode round trip is claimed.
- Serialisation failures are not modelled. In the source, a throw from
  `objectToBytes` or `objectFromBytes` escapes the handler or listener.
- The `!!` on a data item's data (lines 126, 147, 204) is not modelled. It
  throws `NullPointerException` for an item with no data. In the model, an
  item always has data.
- The Google Play Services clients (`NodeClient`, `MessageClient`,
  `DataClient`) are SDK behaviour. This covers the data store's replace-on-put
  semantics, message delivery, and the per-send tasks. Handlers receive the
  outcome the task resolved to.
- Asynchronous completion and listener timing are not modelled; only the
  resolved outcome is. So is the asynchronous lookup that sets `localNode`;
  it appears as the `Option` passed in.
- Flutter `MethodChannel` registration and the attach/detach lifecycle
  (lines 34-55) are framework plumbing.
- `PackageManager.getInstalledApplications` is given as a list of package
  names.
- Diagnostic `log` calls (lines 209-211) are not modelled. This includes the
  fire-and-forget connected-nodes lookup in `isPaired` (lines 94-96), which
  only logs.
- The third argument of `result.error` (the exception itself, as details) is
  not modelled.
- The data layer keeps at most one item per host and path. The model does not
  rely on that: it states the getters over any list of items, duplicates
  included.
