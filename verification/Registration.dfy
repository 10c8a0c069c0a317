/** The `POST /agents` payload: validation by the broker, construction by the client. */
module Registration {
  import opened Wrappers
  import opened Json
  import opened BrokerState

  datatype Reason =
    | AgentIdMissing
    | AgentIdTooLong
    | TokenMismatch
    | HostMissing
    | HostTooLong
    | PortNotInteger
    | PortOutOfRange
    | BadScheme
    | BadPath
    | BadCapabilities
    | BadTtl

  datatype Accepted = Accepted(ep: Endpoint, caps: Object, given: Option<int>)

  /** Every rejection is a 400 except a body id that does not match the token. */
  function StatusOf(r: Reason): int {
    if r.TokenMismatch? then 403 else 400
  }

  /** `isinstance(v, int)`: Python's booleans are integers. */
  function AsInt(v: Value): Option<int> {
    match v
    case Int(n) => Some(n)
    case Bool(b) => Some(if b then 1 else 0)
    case _ => None
  }

  /** Mailbox agents need no address; what they send is kept only when it would be valid. */
  function Address(data: Object, mailbox: bool): Result<(string, int), Reason> {
    var host, port := Get(data, "host"), AsInt(Get(data, "port"));
    if mailbox then
      Ok((if NonEmptyText(host) then host.text else "mailbox",
          if port.Some? && 1 <= port.value <= 65535 then port.value else 0))
    else if !NonEmptyText(host) then Err(HostMissing)
    else if |host.text| > 253 then Err(HostTooLong)
    else if port.None? then Err(PortNotInteger)
    else if !(1 <= port.value <= 65535) then Err(PortOutOfRange)
    else Ok((host.text, port.value))
  }

  predicate IsPath(v: Value) {
    NonEmptyText(v) && v.text[0] == '/'
  }

  /** The optional fields, in the order in which they are checked. */
  function Extras(data: Object): Result<(string, string, Object, Option<int>), Reason> {
    if "scheme" in data && data["scheme"] != Str("http") && data["scheme"] != Str("https") then Err(BadScheme)
    else if "path" in data && !IsPath(data["path"]) then Err(BadPath)
    else if "capabilities" in data && !data["capabilities"].Obj? then Err(BadCapabilities)
    else if "ttl_seconds" in data && (AsInt(data["ttl_seconds"]).None? || AsInt(data["ttl_seconds"]).value < 0) then
      Err(BadTtl)
    else
      Ok((if "scheme" in data then data["scheme"].text else "http",
          if "path" in data then data["path"].text else "/messages",
          if "capabilities" in data then data["capabilities"].fields else map[],
          if "ttl_seconds" in data then AsInt(data["ttl_seconds"]) else None))
  }

  /** `caller` is the authenticated agent, or the empty string when authentication is off. */
  function Parse(data: Object, caller: AgentId): Result<Accepted, Reason> {
    var id := Get(data, "agent_id");
    var mailbox := Truthy(Get(data, "mailbox"));
    if !NonEmptyText(id) then Err(AgentIdMissing)
    else if |id.text| > 255 then Err(AgentIdTooLong)
    else if caller != "" && id.text != caller then Err(TokenMismatch)
    else
      match Address(data, mailbox)
      case Err(r) => Err(r)
      case Ok((host, port)) =>
        match Extras(data)
        case Err(r) => Err(r)
        case Ok((scheme, path, caps, given)) =>
          Ok(Accepted(Endpoint(id.text, host, port, scheme, path, mailbox), caps, given))
  }

  /** The body the client's registry sends for an endpoint; it leaves the TTL to the broker. */
  function Body(ep: Endpoint, caps: Object): Object {
    map["agent_id" := Str(ep.agentId), "host" := Str(ep.host), "port" := Int(ep.port), "scheme" := Str(ep.scheme),
        "path" := Str(ep.path), "capabilities" := Obj(caps), "mailbox" := Bool(ep.mailbox)]
  }

  /** The endpoints that survive the trip through the broker unchanged. */
  predicate Registrable(ep: Endpoint, caller: AgentId) {
    && 1 <= |ep.agentId| <= 255
    && (caller == "" || caller == ep.agentId)
    && ep.host != ""
    && (if ep.mailbox then 0 <= ep.port <= 65535 else |ep.host| <= 253 && 1 <= ep.port <= 65535)
    && ep.scheme in ["http", "https"]
    && ep.path != "" && ep.path[0] == '/'
  }

  /** The broker stores exactly the endpoint and capabilities a client registers, or refuses. */
  lemma ClientBodyRoundTrip(ep: Endpoint, caps: Object, caller: AgentId)
    ensures Parse(Body(ep, caps), caller) == Ok(Accepted(ep, caps, None)) <==> Registrable(ep, caller)
  {
    var data := Body(ep, caps);
    assert data.Keys == {"agent_id", "host", "port", "scheme", "path", "capabilities", "mailbox"};
    assert Get(data, "port") == Int(ep.port) && Get(data, "host") == Str(ep.host);
    assert "ttl_seconds" !in data;
  }

  /** An integer field as Python reads it: booleans are zero and one. */
  predicate Reads(v: Value, n: int) {
    v == Int(n) || (v == Bool(true) && n == 1) || (v == Bool(false) && n == 0)
  }

  /** The broker files what the body says, optional fields, capabilities and TTL included, or their defaults. */
  lemma StoresTheBody(data: Object, caller: AgentId)
    requires Parse(data, caller).Ok?
    ensures var p := Parse(data, caller).value;
            && Get(data, "agent_id") == Str(p.ep.agentId)
            && (if "scheme" in data then data["scheme"] == Str(p.ep.scheme) else p.ep.scheme == "http")
            && (if "path" in data then data["path"] == Str(p.ep.path) else p.ep.path == "/messages")
            && (if "capabilities" in data then data["capabilities"] == Obj(p.caps) else p.caps == map[])
            && (p.given.None? <==> "ttl_seconds" !in data)
            && (p.given.Some? ==> Reads(data["ttl_seconds"], p.given.value))
            && (p.ep.mailbox <==> "mailbox" in data && Truthy(data["mailbox"]))
  {
  }

  /** So it does with the address: a dialable agent's is taken as it is, a mailbox agent's when it would be valid. */
  lemma StoresTheAddress(data: Object, caller: AgentId)
    requires Parse(data, caller).Ok?
    ensures var ep := Parse(data, caller).value.ep; var host, port := Get(data, "host"), Get(data, "port");
            if !ep.mailbox then host == Str(ep.host) && Reads(port, ep.port)
            else
              && (if host.Str? && host.text != "" then ep.host == host.text else ep.host == "mailbox")
              && (if ep.port != 0 then Reads(port, ep.port) else forall n | 1 <= n <= 65535 :: !Reads(port, n))
  {
  }

  /** Which bodies are accepted. */
  lemma AcceptsExactly(data: Object, caller: AgentId)
    ensures var id, host, port := Get(data, "agent_id"), Get(data, "host"), Get(data, "port");
            Parse(data, caller).Ok? <==>
              && id.Str? && 1 <= |id.text| <= 255 && (caller == "" || id.text == caller)
              && (Truthy(Get(data, "mailbox"))
                  || (host.Str? && 1 <= |host.text| <= 253 && exists n :: 1 <= n <= 65535 && Reads(port, n)))
              && ("scheme" in data ==> data["scheme"] == Str("http") || data["scheme"] == Str("https"))
              && ("path" in data ==> data["path"].Str? && data["path"].text != "" && data["path"].text[0] == '/')
              && ("capabilities" in data ==> data["capabilities"].Obj?)
              && ("ttl_seconds" in data ==> exists n :: 0 <= n && Reads(data["ttl_seconds"], n))
  {
    var port, ttl := AsInt(Get(data, "port")), AsInt(Get(data, "ttl_seconds"));
    assert port.Some? ==> Reads(Get(data, "port"), port.value);
    assert ttl.Some? ==> Reads(Get(data, "ttl_seconds"), ttl.value);
  }

  /** 403 is for a body whose otherwise good id is not the caller's; every other refusal is a 400. */
  lemma ForbidsExactly(data: Object, caller: AgentId)
    requires Parse(data, caller).Err?
    ensures var id := Get(data, "agent_id"); var status := StatusOf(Parse(data, caller).error);
            && status in {400, 403}
            && (status == 403 <==> id.Str? && 1 <= |id.text| <= 255 && caller != "" && id.text != caller)
  {
  }

  /** What every accepted registration guarantees, whoever built the body. */
  lemma AcceptedEndpoint(data: Object, caller: AgentId)
    requires Parse(data, caller).Ok?
    ensures Registrable(Parse(data, caller).value.ep, caller)
    ensures var given := Parse(data, caller).value.given; given.Some? ==> given.value >= 0
  {
  }
}
