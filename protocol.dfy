/**
 * The message router (`MCPHandler`): validates an inbound message, looks its `type` up
 * in a fixed table of five operations, calls the accessor and wraps the outcome in one
 * of two envelopes. Every failure ends in the same error envelope.
 */
module Protocol {
  import opened Wrappers
  import opened PyValues
  import KubeClient

  // ---------------------------------------------------------------------------
  // The handler table

  datatype Operation = GetNamespaces | GetPods | GetServices | GetDeployments | ExecuteCommand
  {
    /** The key of this operation in the handler table. */
    function Name(): string
    {
      match this
      case GetNamespaces => "get_namespaces"
      case GetPods => "get_pods"
      case GetServices => "get_services"
      case GetDeployments => "get_deployments"
      case ExecuteCommand => "execute_command"
    }

    /** The `type` of this operation's success envelope. */
    function ResponseType(): string
    {
      match this
      case GetNamespaces => "namespaces_response"
      case GetPods => "pods_response"
      case GetServices => "services_response"
      case GetDeployments => "deployments_response"
      case ExecuteCommand => "command_response"
    }
  }

  /** `handlers.get(name)` for a string `name`: the five keys and nothing else. */
  function OperationNamed(name: string): (r: Option<Operation>)
    ensures r.Some? <==>
      name in {"get_namespaces", "get_pods", "get_services", "get_deployments", "execute_command"}
    ensures r.Some? ==> r.value.Name() == name
    ensures forall op: Operation :: op.Name() == name ==> r == Some(op)
  {
    if name == "get_namespaces" then Some(GetNamespaces)
    else if name == "get_pods" then Some(GetPods)
    else if name == "get_services" then Some(GetServices)
    else if name == "get_deployments" then Some(GetDeployments)
    else if name == "execute_command" then Some(ExecuteCommand)
    else None
  }

  // ---------------------------------------------------------------------------
  // Response envelopes

  /** The two response shapes: success with `type` and `data`, or error with `message`. */
  datatype Envelope =
    | SuccessEnvelope(responseType: string, data: Json)
    | ErrorEnvelope(message: string)
  {
    /** The response dictionary sent back for this envelope. */
    function ToJson(): (j: Json)
      ensures j.JObj?
      ensures SuccessEnvelope? ==>
        && j.fields.Keys == {"status", "type", "data"}
        && j.fields["status"] == JStr("success")
        && j.fields["type"] == JStr(responseType)
        && j.fields["data"] == data
      ensures ErrorEnvelope? ==>
        && j.fields.Keys == {"status", "type", "message"}
        && j.fields["status"] == JStr("error")
        && j.fields["type"] == JStr("error_response")
        && j.fields["message"] == JStr(message)
    {
      match this
      case SuccessEnvelope(t, d) =>
        JObj(map["status" := JStr("success"), "type" := JStr(t), "data" := d])
      case ErrorEnvelope(m) =>
        JObj(map["status" := JStr("error"), "type" := JStr("error_response"), "message" := JStr(m)])
    }
  }

  /** Reads a response dictionary back as an envelope; `None` for any other shape. */
  function EnvelopeOf(j: Json): Option<Envelope>
  {
    if !j.JObj? then None
    else
      var f := j.fields;
      if f.Keys == {"status", "type", "data"} && f["status"] == JStr("success") && f["type"].JStr? then
        Some(SuccessEnvelope(f["type"].s, f["data"]))
      else if f.Keys == {"status", "type", "message"} && f["status"] == JStr("error")
        && f["type"] == JStr("error_response") && f["message"].JStr? then
        Some(ErrorEnvelope(f["message"].s))
      else None
  }

  /** Every envelope's dictionary reads back as that envelope. */
  lemma EnvelopeRoundTrip(e: Envelope)
    ensures EnvelopeOf(e.ToJson()) == Some(e)
  {
  }

  /**
   * A dictionary that reads as an envelope is exactly that envelope's dictionary: the
   * two shapes are the only responses, with no other keys and one of `data`/`message`.
   */
  lemma EnvelopeShapesOnly(j: Json, e: Envelope)
    requires EnvelopeOf(j) == Some(e)
    ensures e.ToJson() == j
  {
  }

  // ---------------------------------------------------------------------------
  // The handlers

  /** The try/except of every handler: the accessor's value as data, or its error text. */
  function Reply(responseType: string, outcome: Result<Json, string>): Envelope
  {
    match outcome
    case Success(v) => SuccessEnvelope(responseType, v)
    case Failure(e) => ErrorEnvelope(e)
  }

  /** A listing's records as the list placed in `data`. */
  function AsList(listing: Result<seq<Json>, string>): Result<Json, string>
  {
    match listing
    case Success(records) => Success(JArr(records))
    case Failure(e) => Failure(e)
  }

  /** `message.get("namespace", "default")`: the given value, or "default" when absent. */
  function NamespaceArgument(message: map<string, Json>): (ns: Json)
    ensures "namespace" !in message ==> ns == JStr("default")
    ensures "namespace" in message ==> ns == message["namespace"]
  {
    if "namespace" in message then message["namespace"] else JStr("default")
  }

  function HandleGetNamespaces(cp: KubeClient.ControlPlane, rt: Runtime): Envelope
  {
    Reply("namespaces_response", AsList(KubeClient.GetNamespaces(cp, rt)))
  }

  function HandleGetPods(cp: KubeClient.ControlPlane, rt: Runtime, message: map<string, Json>): Envelope
  {
    Reply("pods_response", AsList(KubeClient.GetPods(cp, rt, NamespaceArgument(message))))
  }

  function HandleGetServices(cp: KubeClient.ControlPlane, message: map<string, Json>): Envelope
  {
    Reply("services_response", AsList(KubeClient.GetServices(cp, NamespaceArgument(message))))
  }

  function HandleGetDeployments(cp: KubeClient.ControlPlane, rt: Runtime, message: map<string, Json>): Envelope
  {
    Reply("deployments_response", AsList(KubeClient.GetDeployments(cp, rt, NamespaceArgument(message))))
  }

  function HandleExecuteCommand(rt: Runtime, message: map<string, Json>): Envelope
  {
    if "command" !in message then ErrorEnvelope("Command not specified")
    else
      var result := KubeClient.ExecuteCommand(rt, message["command"], NamespaceArgument(message));
      Reply("command_response", Success(result))
  }

  /** Runs the handler the table holds for `op`. */
  function Handle(cp: KubeClient.ControlPlane, rt: Runtime, op: Operation, message: map<string, Json>): Envelope
  {
    match op
    case GetNamespaces => HandleGetNamespaces(cp, rt)
    case GetPods => HandleGetPods(cp, rt, message)
    case GetServices => HandleGetServices(cp, message)
    case GetDeployments => HandleGetDeployments(cp, rt, message)
    case ExecuteCommand => HandleExecuteCommand(rt, message)
  }

  /**
   * `handlers.get(message["type"])` and the unknown-type check. A string not in the table
   * and any other hashable value are unknown; a list or a dict cannot be hashed and
   * raises a TypeError, whose text (`rt.unhashable`) becomes the error message.
   */
  function LookUpHandler(rt: Runtime, tag: Json): Result<Operation, string>
  {
    match tag
    case JArr(_) => Failure(rt.unhashable(tag))
    case JObj(_) => Failure(rt.unhashable(tag))
    case _ =>
      var found := if tag.JStr? then OperationNamed(tag.s) else None;
      match found
      case Some(op) => Success(op)
      case None => Failure("Unknown message type: " + Str(rt, tag))
  }

  /** The check of line 20: the message is a dictionary with a `type` key. */
  predicate HasType(message: Json)
  {
    message.JObj? && "type" in message.fields
  }

  /** The operation a message names, if its `type` is one of the five table keys. */
  function RequestedOperation(message: Json): Option<Operation>
  {
    if HasType(message) && message.fields["type"].JStr? then OperationNamed(message.fields["type"].s)
    else None
  }

  /** `handle_message`: one inbound message, one envelope. */
  function HandleMessage(cp: KubeClient.ControlPlane, rt: Runtime, message: Json): (r: Envelope)
    ensures !HasType(message) ==> r == ErrorEnvelope("Invalid message format")
    ensures (HasType(message) && message.fields["type"].JStr? && RequestedOperation(message).None?) ==>
      r == ErrorEnvelope("Unknown message type: " + message.fields["type"].s)
    ensures (HasType(message) && message.fields["type"] in {JNull, JBool(false), JBool(true)}) ==>
      r == ErrorEnvelope("Unknown message type: " + rt.strOther(message.fields["type"]))
    ensures (HasType(message) && (message.fields["type"].JInt? || message.fields["type"].JFloat?)) ==>
      r == ErrorEnvelope("Unknown message type: " + rt.strOther(message.fields["type"]))
    ensures (HasType(message) && (message.fields["type"].JArr? || message.fields["type"].JObj?)) ==>
      r == ErrorEnvelope(rt.unhashable(message.fields["type"]))
    ensures r.SuccessEnvelope? ==>
      RequestedOperation(message).Some? && r.responseType == RequestedOperation(message).value.ResponseType()
  {
    if !HasType(message) then ErrorEnvelope("Invalid message format")
    else
      match LookUpHandler(rt, message.fields["type"])
      case Failure(e) => ErrorEnvelope(e)
      case Success(op) => Handle(cp, rt, op, message.fields)
  }

  // ---------------------------------------------------------------------------
  // Routing properties

  /**
   * `get_namespaces`: the success envelope carries the accessor's list unchanged, and an
   * accessor failure becomes the error envelope with its text; `namespace` is ignored.
   */
  lemma GetNamespacesRouted(cp: KubeClient.ControlPlane, rt: Runtime, message: map<string, Json>)
    requires "type" in message && message["type"] == JStr("get_namespaces")
    ensures var listing := KubeClient.GetNamespaces(cp, rt);
      var r := HandleMessage(cp, rt, JObj(message));
      && (listing.Success? ==> r == SuccessEnvelope("namespaces_response", JArr(listing.value)))
      && (listing.Failure? ==> r == ErrorEnvelope(listing.error))
  {
  }

  /** `get_pods`: the accessor is asked for the requested namespace; its answer is wrapped unchanged. */
  lemma GetPodsRouted(cp: KubeClient.ControlPlane, rt: Runtime, message: map<string, Json>)
    requires "type" in message && message["type"] == JStr("get_pods")
    ensures var listing := KubeClient.GetPods(cp, rt, NamespaceArgument(message));
      var r := HandleMessage(cp, rt, JObj(message));
      && (listing.Success? ==> r == SuccessEnvelope("pods_response", JArr(listing.value)))
      && (listing.Failure? ==> r == ErrorEnvelope(listing.error))
  {
  }

  /** `get_services`: the accessor is asked for the requested namespace; its answer is wrapped unchanged. */
  lemma GetServicesRouted(cp: KubeClient.ControlPlane, rt: Runtime, message: map<string, Json>)
    requires "type" in message && message["type"] == JStr("get_services")
    ensures var listing := KubeClient.GetServices(cp, NamespaceArgument(message));
      var r := HandleMessage(cp, rt, JObj(message));
      && (listing.Success? ==> r == SuccessEnvelope("services_response", JArr(listing.value)))
      && (listing.Failure? ==> r == ErrorEnvelope(listing.error))
  {
  }

  /** `get_deployments`: the accessor is asked for the requested namespace; its answer is wrapped unchanged. */
  lemma GetDeploymentsRouted(cp: KubeClient.ControlPlane, rt: Runtime, message: map<string, Json>)
    requires "type" in message && message["type"] == JStr("get_deployments")
    ensures var listing := KubeClient.GetDeployments(cp, rt, NamespaceArgument(message));
      var r := HandleMessage(cp, rt, JObj(message));
      && (listing.Success? ==> r == SuccessEnvelope("deployments_response", JArr(listing.value)))
      && (listing.Failure? ==> r == ErrorEnvelope(listing.error))
  {
  }

  /**
   * `execute_command`: without a `command` key the request is refused; otherwise the
   * placeholder's acknowledgment for the command and the requested namespace is the data.
   */
  lemma ExecuteCommandRouted(cp: KubeClient.ControlPlane, rt: Runtime, message: map<string, Json>)
    requires "type" in message && message["type"] == JStr("execute_command")
    ensures "command" !in message ==>
      HandleMessage(cp, rt, JObj(message)) == ErrorEnvelope("Command not specified")
    ensures "command" in message ==>
      HandleMessage(cp, rt, JObj(message)) ==
        SuccessEnvelope("command_response",
          KubeClient.ExecuteCommand(rt, message["command"], NamespaceArgument(message)))
  {
  }

  /**
   * Only the four listings reach the control plane: a malformed message, an unknown
   * type and every `execute_command` get the same response whatever the cluster holds.
   */
  lemma ControlPlaneOnlyForListings(cp1: KubeClient.ControlPlane, cp2: KubeClient.ControlPlane, rt: Runtime, message: Json)
    requires RequestedOperation(message).None? || RequestedOperation(message) == Some(ExecuteCommand)
    ensures HandleMessage(cp1, rt, message) == HandleMessage(cp2, rt, message)
  {
  }

  /** The scenario of one running pod listed in "kube-system". */
  lemma OneRunningPodScenario(cp: KubeClient.ControlPlane, rt: Runtime, created: DateTime)
    requires cp.listNamespacedPod(JStr("kube-system")) == Success([
      KubeClient.Pod(
        Some(KubeClient.ObjectMeta(Some("coredns-abc"), Some("kube-system"), Some(created))),
        Some(KubeClient.PodSpec(Some("node1"))),
        Some(KubeClient.PodStatus(Some("Running"), Some("10.0.0.5"))))])
    requires rt.isoformat(created) == "2024-01-01T00:00:00+00:00"
    ensures HandleMessage(cp, rt, JObj(map["type" := JStr("get_pods"), "namespace" := JStr("kube-system")])).ToJson()
      == JObj(map[
           "status" := JStr("success"),
           "type" := JStr("pods_response"),
           "data" := JArr([JObj(map[
             "name" := JStr("coredns-abc"),
             "namespace" := JStr("kube-system"),
             "status" := JStr("Running"),
             "ip" := JStr("10.0.0.5"),
             "node" := JStr("node1"),
             "creation_timestamp" := JStr("2024-01-01T00:00:00+00:00")])])])
  {
    var pods := cp.listNamespacedPod(JStr("kube-system")).value;
    var record := JObj(map[
      "name" := JStr("coredns-abc"),
      "namespace" := JStr("kube-system"),
      "status" := JStr("Running"),
      "ip" := JStr("10.0.0.5"),
      "node" := JStr("node1"),
      "creation_timestamp" := JStr("2024-01-01T00:00:00+00:00")]);
    assert KubeClient.PodRecord(rt, pods[0]) == Success(record);
    var listing := KubeClient.GetPods(cp, rt, JStr("kube-system"));
    assert |pods| == 1;
    assert listing.Success?;
    assert listing.value == [record];
  }

  /** The scenario of a `get_services` request without namespace in an empty "default". */
  lemma NoServicesScenario(cp: KubeClient.ControlPlane, rt: Runtime)
    requires cp.listNamespacedService(JStr("default")) == Success([])
    ensures HandleMessage(cp, rt, JObj(map["type" := JStr("get_services")])).ToJson()
      == JObj(map["status" := JStr("success"), "type" := JStr("services_response"), "data" := JArr([])])
  {
  }
}
