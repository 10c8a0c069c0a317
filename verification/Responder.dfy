/** Dispatching typed requests to handlers, and the reply that leaves the agent. */
module Responder {
  import opened Wrappers
  import opened Json
  import opened Messages
  import Codec
  import PullProtocol
  import Transport = BrokeredTransport

  /** A handler of the class itself, or one registered later under a name of its own. */
  datatype Handler = Builtin(kind: string) | Custom(name: string)

  /**
   * What a call of a handler does. `Unprintable` is a mapping that `json.dumps` refuses, such as one that
   * holds a `datetime`; `Unmappable` is a result that already `dict()` refuses. The body of `Returned` is
   * the mapping as JSON prints it.
   */
  datatype Result = Returned(body: Option<Object>) | Unprintable | Unmappable | Raises(text: string)

  /** One request's worth of handler behaviour. */
  type Behaviour = (Handler, Object) -> Result

  const BUILTIN_KINDS: set<string> := {"monitor", "config-get", "config-set"}

  function Lookup(extra: map<string, Handler>, kind: string): Option<Handler> {
    if kind in extra then Some(extra[kind])
    else if kind in BUILTIN_KINDS then Some(Builtin(kind))
    else None
  }

  function ParamsOf(body: Object): Object {
    if "params" in body && body["params"].Obj? then body["params"].fields else map[]
  }

  /** The result of the handler that the request asks for, when it asks for one that there is. */
  function Called(extra: map<string, Handler>, body: Object, behaviour: Behaviour): Option<Result> {
    var kind := Get(body, "kind");
    if !NonEmptyText(kind) || Lookup(extra, kind.text).None? then None
    else Some(behaviour(Lookup(extra, kind.text).value, ParamsOf(body)))
  }

  /** What leaves the dispatcher: a reply that can be printed, one that cannot, or an exception. */
  datatype Dispatched = Frame(m: Message) | UnprintableFrame | Escaped

  /** What the requester is to be told; `Silent` when printing the reply fails, which the worker thread ignores. */
  function VerdictOn(extra: map<string, Handler>, body: Object, behaviour: Behaviour): PullProtocol.Verdict {
    match Called(extra, body, behaviour)
    case None =>
      if NonEmptyText(Get(body, "kind")) then PullProtocol.Fail("unknown_kind", "unknown request kind")
      else PullProtocol.Fail("invalid_request", "missing or invalid 'kind' in request body")
    case Some(Raises(text)) => PullProtocol.Fail("handler_error", text)
    case Some(Returned(result)) => PullProtocol.Answer(if result.Some? then result.value else map[])
    case Some(Unprintable) => PullProtocol.Silent
    case Some(Unmappable) => PullProtocol.Fail("handler_error", "internal handler error")
  }

  class BrokeredResponder {
    const agentId: string
    var extraHandlers: map<string, Handler>

    constructor (agentId: string)
      ensures this.agentId == agentId && extraHandlers == map[]
    {
      this.agentId, extraHandlers := agentId, map[];
    }

    /** A registered handler takes precedence over a built-in one; other kinds keep theirs. */
    method RegisterHandler(kind: string, handler: Handler)
      modifies this
      ensures forall k :: Lookup(extraHandlers, k) == if k == kind then Some(handler) else Lookup(old(extraHandlers), k)
    {
      extraHandlers := extraHandlers[kind := handler];
    }

    /** An exception escapes when the handler's result is no mapping. */
    method Dispatch(request: Message, behaviour: Behaviour, stamp: Stamp) returns (reply: Dispatched)
      requires request.kind.Request?
      ensures reply == Escaped <==> Called(extraHandlers, request.body, behaviour) == Some(Unmappable)
      ensures reply == UnprintableFrame <==> Called(extraHandlers, request.body, behaviour) == Some(Unprintable)
      ensures reply.Frame? ==>
                var verdict := VerdictOn(extraHandlers, request.body, behaviour);
                PullProtocol.ReplyOf(agentId, request, verdict, stamp) == Some(reply.m)
    {
      var sender := Some(Str(agentId));
      var kind := Get(request.body, "kind");
      if !kind.Str? || kind.text == "" {
        return Frame(ErrorTo(request, "invalid_request", "missing or invalid 'kind' in request body", sender, stamp));
      }
      var handler := Lookup(extraHandlers, kind.text);
      if handler.None? {
        return Frame(ErrorTo(request, "unknown_kind", "unknown request kind", sender, stamp));
      }
      var result := behaviour(handler.value, ParamsOf(request.body));
      match result {
        case Raises(text) => reply := Frame(ErrorTo(request, "handler_error", text, sender, stamp));
        case Returned(body) =>
          reply := Frame(ResponseTo(request, if body.Some? then body.value else map[], sender, stamp));
        case Unprintable => reply := UnprintableFrame;
        case Unmappable => reply := Escaped;
      }
    }

    /**
     * `Agent._run_handler` on a request, up to what it posts: an escaped exception becomes an error reply,
     * and a reply that cannot be printed is dropped without a word.
     */
    method RunHandler(request: Message, behaviour: Behaviour, stamp: Stamp) returns (posted: Option<Message>)
      requires request.kind.Request?
      ensures posted == PullProtocol.ReplyOf(agentId, request, VerdictOn(extraHandlers, request.body, behaviour), stamp)
    {
      var dispatched := Dispatch(request, behaviour, stamp);
      match dispatched {
        case Frame(m) => posted := Some(m);
        case UnprintableFrame => posted := None;
        case Escaped =>
          posted := Some(ErrorTo(request, "handler_error", "internal handler error", Some(Str(agentId)), stamp));
      }
    }
  }

  /**
   * A request is answered exactly unless its handler returned a mapping that JSON cannot print; the answer
   * is a `Response` exactly when the handler returned a printable mapping or nothing, and else an `Error`.
   */
  lemma AnsweredExactly(agentId: string, extra: map<string, Handler>, m: Message, behaviour: Behaviour, stamp: Stamp)
    requires m.kind.Request?
    ensures var posted := PullProtocol.ReplyOf(agentId, m, VerdictOn(extra, m.body, behaviour), stamp);
            var result := Called(extra, m.body, behaviour);
            && (posted.Some? <==> result != Some(Unprintable))
            && (posted.Some? ==> posted.value.kind.Response? || posted.value.kind.Error?)
            && (posted.Some? && posted.value.kind.Response? <==> result.Some? && result.value.Returned?)
  {
  }

  /** A reply that can be told apart from others only by its body. */
  predicate Tells(posted: Option<Message>, kind: Kind, body: Object) {
    posted.Some? && posted.value.kind == kind && posted.value.body == body
  }

  predicate TellsCode(posted: Option<Message>, code: string) {
    posted.Some? && posted.value.kind.Error? && Get(posted.value.body, "code") == Str(code)
  }

  /** A request whose kind is missing or has no handler is told so. */
  lemma UnhandledExactly(agentId: string, extra: map<string, Handler>, m: Message, behaviour: Behaviour, stamp: Stamp)
    requires m.kind.Request?
    ensures var posted := PullProtocol.ReplyOf(agentId, m, VerdictOn(extra, m.body, behaviour), stamp);
            if !("kind" in m.body && m.body["kind"].Str? && m.body["kind"].text != "") then
              TellsCode(posted, "invalid_request")
            else
              var kind := m.body["kind"].text;
              kind !in extra && kind != "monitor" && kind != "config-get" && kind != "config-set" ==>
                TellsCode(posted, "unknown_kind")
  {
  }

  /**
   * Any other request goes to the handler registered for its kind, or else to the built-in one, with the
   * request's params if they are an object; and what the handler does is what the requester is told.
   */
  lemma HandledExactly(agentId: string, extra: map<string, Handler>, m: Message, behaviour: Behaviour, stamp: Stamp,
                       kind: string, handler: Handler, params: Object)
    requires m.kind.Request? && kind != "" && "kind" in m.body && m.body["kind"] == Str(kind)
    requires if kind in extra then handler == extra[kind]
             else kind in {"monitor", "config-get", "config-set"} && handler == Builtin(kind)
    requires if "params" in m.body && m.body["params"].Obj? then m.body["params"] == Obj(params) else params == map[]
    ensures var posted := PullProtocol.ReplyOf(agentId, m, VerdictOn(extra, m.body, behaviour), stamp);
            match behaviour(handler, params)
            case Returned(Some(result)) => Tells(posted, Response, result)
            case Returned(None) => Tells(posted, Response, map[])
            case Raises(text) => Tells(posted, Error, map["code" := Str("handler_error"), "message" := Str(text)])
            case Unmappable => TellsCode(posted, "handler_error")
            case Unprintable => posted == None
  {
    assert Called(extra, m.body, behaviour) == Some(behaviour(handler, params));
  }

  /** The failing input: a request for a handler of one's own that returns such a mapping is never answered. */
  lemma UnprintableIsDropped(agentId: string, name: string, m: Message, stamp: Stamp)
    requires m.kind.Request? && Get(m.body, "kind") == Str("now")
    ensures var extra := map["now" := Custom(name)];
            PullProtocol.ReplyOf(agentId, m, VerdictOn(extra, m.body, (h, params) => Unprintable), stamp) == None
  {
    assert Lookup(map["now" := Custom(name)], "now") == Some(Custom(name));
  }

  /**
   * Whatever the request and the handler, a reply of a named agent that is posted is a valid envelope, so
   * it survives the wire; it is addressed to the requester and correlated with the request. None is posted
   * exactly when the handler returned a mapping that JSON cannot print.
   */
  lemma ReplyReachesRequester(agentId: string, extra: map<string, Handler>, m: Message, behaviour: Behaviour,
                              stamp: Stamp)
    requires agentId != "" && m.kind.Request? && Codec.Sendable(m) && Transport.ProperStamp(stamp)
    ensures var posted := PullProtocol.ReplyOf(agentId, m, VerdictOn(extra, m.body, behaviour), stamp);
            if Called(extra, m.body, behaviour) == Some(Unprintable) then posted == None
            else
              && posted.Some?
              && Transport.Deserialize(Transport.Serialize(posted.value)) == Ok(posted.value)
              && posted.value.metadata.recipient == m.metadata.sender && posted.value.correlation == Some(m.id)
              && PullProtocol.PostedTo(posted.value) == Some(PullProtocol.Mailbox(m.metadata.sender.text))
  {
    var posted := PullProtocol.ReplyOf(agentId, m, VerdictOn(extra, m.body, behaviour), stamp);
    AnsweredExactly(agentId, extra, m, behaviour, stamp);
    if posted.Some? {
      Transport.VersionIsSupported();
      Transport.DeserializeSerialized(posted.value);
    }
  }
}
