/** The Wearable data layer as the plugin sees it: node ids, data items, data
    and message events, and the resolved outcome of an asynchronous SDK task.
    Only the fields the plugin reads are kept. */
module Wearable {

  import opened Optional

  type NodeId = string
  type Bytes = seq<bv8>

  /** A peer device; the plugin reads only its id. */
  datatype Node = Node(id: NodeId)

  /** A replicated data item, addressed by the URI `wear://<host><path>`
      where `host` is the id of the node that put it. */
  datatype DataItem = DataItem(host: NodeId, path: string, data: Bytes)

  /** `DataEvent.TYPE_CHANGED` and `DataEvent.TYPE_DELETED` of the Wearable SDK. */
  const TypeChanged: int := 1
  const TypeDeleted: int := 2

  /** One entry of a `DataEventBuffer`. */
  datatype DataEvent = DataEvent(eventType: int, item: DataItem)

  /** An inbound message from a peer. */
  datatype MessageEvent = MessageEvent(sourceNodeId: NodeId, path: string, data: Bytes)

  /** The exception a failed task reports; both messages may be null. */
  datatype Exception = Exception(message: Option<string>, localizedMessage: Option<string>)

  /** The outcome an asynchronous SDK task resolved to: the value handed to its
      success listener, or the exception handed to its failure listener. */
  datatype Query<+T> = Resolved(value: T) | Failed(error: Exception)
}
