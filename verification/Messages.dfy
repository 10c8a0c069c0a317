/** The message envelope, its four kinds, and the two reply constructors. */
module Messages {
  import opened Wrappers
  import opened Json

  datatype Kind = Request | Response | Error | Notification

  /**
   * `sender` and `recipient` are JSON values: the envelope parser lets any recipient
   * through, and a reply's sender is copied from the request's recipient.
   */
  datatype Metadata = Metadata(sender: Value, recipient: Value, timestamp: string, extra: Object)

  datatype Message = Message(kind: Kind, metadata: Metadata, id: string, version: string, body: Object,
                             correlation: Option<string>)
  {
    /** What the constructors of the four classes enforce. */
    predicate WellFormed() {
      && (kind.Request? || kind.Notification? ==> correlation.None?)
      && (kind.Response? ==> correlation.Some?)
    }
  }

  const PROTOCOL_VERSION := "1.0"

  /** A fresh identifier and the current time, as the environment supplies them. */
  datatype Stamp = Stamp(id: string, time: string)

  /** The reply's sender: explicit, else the request's recipient, else the request's sender. */
  function ReplySender(request: Message, sender: Option<Value>): Value {
    if sender.Some? then sender.value
    else if request.metadata.recipient != Null then request.metadata.recipient
    else request.metadata.sender
  }

  function Reply(kind: Kind, request: Message, body: Object, sender: Option<Value>, stamp: Stamp): Message {
    Message(kind, Metadata(ReplySender(request, sender), request.metadata.sender, stamp.time, map[]),
            stamp.id, PROTOCOL_VERSION, body, Some(request.id))
  }

  /** A new message of the current version, correlated with the request and routed back to its sender. */
  predicate RepliesTo(r: Message, request: Message, sender: Option<Value>, stamp: Stamp) {
    && r.correlation == Some(request.id) && r.metadata.recipient == request.metadata.sender
    && (sender.Some? ==> r.metadata.sender == sender.value)
    && (sender.None? && request.metadata.recipient != Null ==> r.metadata.sender == request.metadata.recipient)
    && (sender.None? && request.metadata.recipient == Null ==> r.metadata.sender == request.metadata.sender)
    && r.id == stamp.id && r.metadata.timestamp == stamp.time && r.metadata.extra == map[] && r.version == "1.0"
  }

  function ResponseTo(request: Message, body: Object, sender: Option<Value>, stamp: Stamp): (r: Message)
    ensures r.WellFormed() && RepliesTo(r, request, sender, stamp)
    ensures r.kind.Response? && r.body == body
  {
    Reply(Response, request, body, sender, stamp)
  }

  function ErrorBody(code: string, text: string): Object {
    map["code" := Str(code), "message" := Str(text)]
  }

  function ErrorTo(request: Message, code: string, text: string, sender: Option<Value>, stamp: Stamp): (r: Message)
    ensures r.WellFormed() && RepliesTo(r, request, sender, stamp)
    ensures r.kind.Error?
    ensures r.body.Keys == {"code", "message"} && r.body["code"] == Str(code) && r.body["message"] == Str(text)
  {
    Reply(Error, request, ErrorBody(code, text), sender, stamp)
  }
}
