/** The Flutter side of the plugin: the method call the host sends, the reply
    it gets back, and the actions the plugin issues to the Wearable SDK and to
    the host while handling a call or a listener callback. `A` stands for the
    values the Flutter codec carries (maps, lists, scalars); they are opaque to
    the plugin. */
module Bridge {

  import opened Optional
  import opened Wearable

  /** A call from the host: the method name and its (opaque) arguments. */
  datatype MethodCall<A> = MethodCall(name: string, arguments: A)

  /** The Java serialisation the plugin applies to payloads
      (`objectToBytes` / `objectFromBytes`), left uninterpreted. */
  datatype Codec<!A> = Codec(encode: A -> Bytes, decode: Bytes -> A)

  /** The values the plugin hands to `result.success`. */
  datatype HostValue<A> =
    | BoolValue(b: bool)
    | NullValue
    | EmptyMap
    | Object(obj: A)
    | Objects(objs: seq<A>)

  const UninitializedPropertyAccess := "UninitializedPropertyAccessException"

  /** How a host call ends. `Threw` is an exception escaping a task listener:
      no reply reaches the host. */
  datatype MethodResult<A> =
    | Success(value: HostValue<A>)
    | Error(code: string, message: Option<string>)
    | NotImplemented
    | Threw(exception: string)

  /** What the plugin asks of the SDK (`messageClient.sendMessage`, `dataClient.putDataItem`) and of the
      host (`Invoke`, i.e. `channel.invokeMethod`). */
  datatype Action<A> =
    | Send(nodeId: NodeId, path: string, data: Bytes)
    | Put(path: string, data: Bytes)
    | Invoke(hostMethod: string, argument: A)

  /** The actions a host call issues, in order, and how it ends. */
  datatype Outcome<A> = Outcome(actions: seq<Action<A>>, result: MethodResult<A>)

  /** What a listener callback does: invoke the host in order, or throw
      before invoking anything. */
  datatype Delivery<A> = Delivered(invocations: seq<Action<A>>) | Aborted(exception: string)

  /** The reply for a failed task: `result.error(it.message ?: "", it.localizedMessage, it)`. */
  function ErrorOf<A>(e: Exception): (r: MethodResult<A>)
    ensures r.Error? && r.message == e.localizedMessage
    ensures e.message.Some? ==> r.code == e.message.value
    ensures e.message.None? ==> r.code == ""
  {
    Error(e.message.GetOr(""), e.localizedMessage)
  }
}
