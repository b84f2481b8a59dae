/**
 * The resource accessor (`KubernetesClient`): each listing asks the control plane for
 * the native records of one kind and projects every record, field by field, into a
 * plain response dictionary; `execute_command` only builds an acknowledgment.
 *
 * The control plane is an oracle (`ControlPlane`). Native records follow the shape of
 * the Kubernetes client objects: every nested object and every scalar may be `None`.
 * Reading an attribute of a `None` object raises an AttributeError, which aborts the
 * whole listing exactly like a failing control-plane call.
 */
module KubeClient {
  import opened Wrappers
  import opened PyValues

  // ---------------------------------------------------------------------------
  // Native records, as returned by the control plane

  datatype ObjectMeta = ObjectMeta(
    name: Option<string>, namespace: Option<string>, creationTimestamp: Option<DateTime>)

  datatype NamespaceStatus = NamespaceStatus(phase: Option<string>)
  datatype Namespace = Namespace(metadata: Option<ObjectMeta>, status: Option<NamespaceStatus>)

  datatype PodSpec = PodSpec(nodeName: Option<string>)
  datatype PodStatus = PodStatus(phase: Option<string>, podIP: Option<string>)
  datatype Pod = Pod(metadata: Option<ObjectMeta>, spec: Option<PodSpec>, status: Option<PodStatus>)

  /** A service port's `target_port`: a number or a named port. */
  datatype IntOrString = IntPort(n: int) | NamedPort(name: string)
  datatype ServicePort = ServicePort(port: Option<int>, targetPort: Option<IntOrString>, protocol: Option<string>)
  datatype ServiceSpec = ServiceSpec(
    clusterIP: Option<string>, serviceType: Option<string>, ports: Option<seq<ServicePort>>)
  datatype Service = Service(metadata: Option<ObjectMeta>, spec: Option<ServiceSpec>)

  datatype DeploymentStrategy = DeploymentStrategy(strategyType: Option<string>)
  datatype DeploymentSpec = DeploymentSpec(replicas: Option<int>, strategy: Option<DeploymentStrategy>)
  datatype DeploymentStatus = DeploymentStatus(availableReplicas: Option<int>)
  datatype Deployment = Deployment(
    metadata: Option<ObjectMeta>, spec: Option<DeploymentSpec>, status: Option<DeploymentStatus>)

  /**
   * The control-plane calls the accessor makes: `list_namespace()` and the three
   * `list_namespaced_*` calls, each answering with the native items or failing with the
   * text of the exception it raised. The namespace is whatever value the caller passed.
   */
  datatype ControlPlane = ControlPlane(
    listNamespace: Result<seq<Namespace>, string>,
    listNamespacedPod: Json -> Result<seq<Pod>, string>,
    listNamespacedService: Json -> Result<seq<Service>, string>,
    listNamespacedDeployment: Json -> Result<seq<Deployment>, string>)

  /** The namespace every namespaced operation uses when its caller gives none. */
  const DefaultNamespace: Json := JStr("default")

  // ---------------------------------------------------------------------------
  // The list comprehension: project every item, in order, or raise the first error

  function ProjectAll<T>(project: T -> Result<Json, string>, items: seq<T>): (r: Result<seq<Json>, string>)
    ensures r.Success? <==> forall i :: 0 <= i < |items| ==> project(items[i]).Success?
    ensures r.Success? ==>
      && |r.value| == |items|
      && forall i :: 0 <= i < |items| ==> r.value[i] == project(items[i]).value
    ensures r.Failure? ==>
      exists k :: 0 <= k < |items| && project(items[k]) == Failure(r.error)
        && forall i :: 0 <= i < k ==> project(items[i]).Success?
  {
    if |items| == 0 then Success([])
    else
      match project(items[0])
      case Failure(e) => Failure(e)
      case Success(head) =>
        match ProjectAll(project, items[1..])
        case Failure(e) => Failure(e)
        case Success(tail) => Success([head] + tail)
  }

  // ---------------------------------------------------------------------------
  // Per-item projections (one dictionary literal each, evaluated key by key)

  /** `{"name", "status", "creation_timestamp"}` of one namespace. */
  function NamespaceRecord(rt: Runtime, ns: Namespace): (r: Result<Json, string>)
    ensures ns.metadata.None? ==> r == Failure(NoneHasNo("name"))
    ensures ns.metadata.Some? && ns.status.None? ==> r == Failure(NoneHasNo("phase"))
    ensures ns.metadata.Some? && ns.status.Some? && ns.metadata.value.creationTimestamp.None? ==>
      r == Failure(NoneHasNo("isoformat"))
    ensures ns.metadata.Some? && ns.status.Some? && ns.metadata.value.creationTimestamp.Some? ==>
      r.Success?
    ensures r.Success? ==>
      && ns.metadata.Some? && ns.status.Some? && ns.metadata.value.creationTimestamp.Some?
      && r.value.JObj?
      && r.value.fields.Keys == {"name", "status", "creation_timestamp"}
      && r.value.fields["name"] == NullableStr(ns.metadata.value.name)
      && r.value.fields["status"] == NullableStr(ns.status.value.phase)
      && r.value.fields["creation_timestamp"] ==
           JStr(rt.isoformat(ns.metadata.value.creationTimestamp.value))
  {
    if ns.metadata.None? then Failure(NoneHasNo("name"))
    else if ns.status.None? then Failure(NoneHasNo("phase"))
    else if ns.metadata.value.creationTimestamp.None? then Failure(NoneHasNo("isoformat"))
    else
      var meta := ns.metadata.value;
      Success(JObj(map[
        "name" := NullableStr(meta.name),
        "status" := NullableStr(ns.status.value.phase),
        "creation_timestamp" := JStr(rt.isoformat(meta.creationTimestamp.value))]))
  }

  /** `{"name", "namespace", "status", "ip", "node", "creation_timestamp"}` of one pod. */
  function PodRecord(rt: Runtime, pod: Pod): (r: Result<Json, string>)
    ensures pod.metadata.None? ==> r == Failure(NoneHasNo("name"))
    ensures pod.metadata.Some? && pod.status.None? ==> r == Failure(NoneHasNo("phase"))
    ensures pod.metadata.Some? && pod.status.Some? && pod.spec.None? ==>
      r == Failure(NoneHasNo("node_name"))
    ensures (pod.metadata.Some? && pod.status.Some? && pod.spec.Some?
             && pod.metadata.value.creationTimestamp.None?) ==> r == Failure(NoneHasNo("isoformat"))
    ensures (pod.metadata.Some? && pod.status.Some? && pod.spec.Some?
             && pod.metadata.value.creationTimestamp.Some?) ==> r.Success?
    ensures r.Success? ==>
      && pod.metadata.Some? && pod.status.Some? && pod.spec.Some?
      && pod.metadata.value.creationTimestamp.Some?
      && r.value.JObj?
      && r.value.fields.Keys == {"name", "namespace", "status", "ip", "node", "creation_timestamp"}
      && r.value.fields["name"] == NullableStr(pod.metadata.value.name)
      && r.value.fields["namespace"] == NullableStr(pod.metadata.value.namespace)
      && r.value.fields["status"] == NullableStr(pod.status.value.phase)
      && (r.value.fields["ip"] == JNull <==> pod.status.value.podIP.None?)
      && r.value.fields["ip"] == NullableStr(pod.status.value.podIP)
      && (r.value.fields["node"] == JNull <==> pod.spec.value.nodeName.None?)
      && r.value.fields["node"] == NullableStr(pod.spec.value.nodeName)
      && r.value.fields["creation_timestamp"] ==
           JStr(rt.isoformat(pod.metadata.value.creationTimestamp.value))
  {
    if pod.metadata.None? then Failure(NoneHasNo("name"))
    else if pod.status.None? then Failure(NoneHasNo("phase"))
    else if pod.spec.None? then Failure(NoneHasNo("node_name"))
    else if pod.metadata.value.creationTimestamp.None? then Failure(NoneHasNo("isoformat"))
    else
      var meta := pod.metadata.value;
      Success(JObj(map[
        "name" := NullableStr(meta.name),
        "namespace" := NullableStr(meta.namespace),
        "status" := NullableStr(pod.status.value.phase),
        "ip" := NullableStr(pod.status.value.podIP),
        "node" := NullableStr(pod.spec.value.nodeName),
        "creation_timestamp" := JStr(rt.isoformat(meta.creationTimestamp.value))]))
  }

  /** A `target_port` as it lands in a response dictionary. */
  function TargetPortValue(t: Option<IntOrString>): (r: Json)
    ensures r == JNull <==> t.None?
    ensures t.Some? && t.value.IntPort? ==> r == JInt(t.value.n)
    ensures t.Some? && t.value.NamedPort? ==> r == JStr(t.value.name)
  {
    match t
    case None => JNull
    case Some(IntPort(n)) => JInt(n)
    case Some(NamedPort(name)) => JStr(name)
  }

  /** `{"port", "target_port", "protocol"}` of one service port. */
  function PortRecord(p: ServicePort): (r: Json)
    ensures r.JObj? && r.fields.Keys == {"port", "target_port", "protocol"}
    ensures r.fields["port"] == NullableInt(p.port)
    ensures r.fields["target_port"] == TargetPortValue(p.targetPort)
    ensures r.fields["protocol"] == NullableStr(p.protocol)
  {
    JObj(map[
      "port" := NullableInt(p.port),
      "target_port" := TargetPortValue(p.targetPort),
      "protocol" := NullableStr(p.protocol)])
  }

  /** The `ports` list of a service: empty when the native list is `None` or empty. */
  function PortRecords(ports: Option<seq<ServicePort>>): (r: seq<Json>)
    ensures ports.None? ==> r == []
    ensures ports.Some? ==> |r| == |ports.value|
    ensures ports.Some? ==> forall i :: 0 <= i < |r| ==> r[i] == PortRecord(ports.value[i])
  {
    if ports.None? || |ports.value| == 0 then []
    else seq(|ports.value|, i requires 0 <= i < |ports.value| => PortRecord(ports.value[i]))
  }

  /** `{"name", "namespace", "cluster_ip", "type", "ports"}` of one service. */
  function ServiceRecord(svc: Service): (r: Result<Json, string>)
    ensures svc.metadata.None? ==> r == Failure(NoneHasNo("name"))
    ensures svc.metadata.Some? && svc.spec.None? ==> r == Failure(NoneHasNo("cluster_ip"))
    ensures r.Success? ==>
      && svc.metadata.Some? && svc.spec.Some?
      && r.value.JObj?
      && r.value.fields.Keys == {"name", "namespace", "cluster_ip", "type", "ports"}
      && r.value.fields["name"] == NullableStr(svc.metadata.value.name)
      && r.value.fields["namespace"] == NullableStr(svc.metadata.value.namespace)
      && r.value.fields["cluster_ip"] == NullableStr(svc.spec.value.clusterIP)
      && r.value.fields["type"] == NullableStr(svc.spec.value.serviceType)
      && r.value.fields["ports"] == JArr(PortRecords(svc.spec.value.ports))
    ensures svc.metadata.Some? && svc.spec.Some? ==> r.Success?
  {
    if svc.metadata.None? then Failure(NoneHasNo("name"))
    else if svc.spec.None? then Failure(NoneHasNo("cluster_ip"))
    else
      var meta, spec := svc.metadata.value, svc.spec.value;
      Success(JObj(map[
        "name" := NullableStr(meta.name),
        "namespace" := NullableStr(meta.namespace),
        "cluster_ip" := NullableStr(spec.clusterIP),
        "type" := NullableStr(spec.serviceType),
        "ports" := JArr(PortRecords(spec.ports))]))
  }

  /**
   * `{"name", "namespace", "replicas", "available_replicas", "strategy",
   * "creation_timestamp"}` of one deployment.
   */
  function DeploymentRecord(rt: Runtime, dep: Deployment): (r: Result<Json, string>)
    ensures dep.metadata.None? ==> r == Failure(NoneHasNo("name"))
    ensures dep.metadata.Some? && dep.spec.None? ==> r == Failure(NoneHasNo("replicas"))
    ensures dep.metadata.Some? && dep.spec.Some? && dep.status.None? ==>
      r == Failure(NoneHasNo("available_replicas"))
    ensures (dep.metadata.Some? && dep.spec.Some? && dep.status.Some?
             && dep.spec.value.strategy.None?) ==> r == Failure(NoneHasNo("type"))
    ensures (dep.metadata.Some? && dep.spec.Some? && dep.status.Some?
             && dep.spec.value.strategy.Some? && dep.metadata.value.creationTimestamp.None?) ==>
      r == Failure(NoneHasNo("isoformat"))
    ensures (dep.metadata.Some? && dep.spec.Some? && dep.status.Some?
             && dep.spec.value.strategy.Some? && dep.metadata.value.creationTimestamp.Some?) ==>
      r.Success?
    ensures r.Success? ==>
      && dep.metadata.Some? && dep.spec.Some? && dep.status.Some?
      && dep.spec.value.strategy.Some? && dep.metadata.value.creationTimestamp.Some?
      && r.value.JObj?
      && r.value.fields.Keys ==
           {"name", "namespace", "replicas", "available_replicas", "strategy", "creation_timestamp"}
      && r.value.fields["name"] == NullableStr(dep.metadata.value.name)
      && r.value.fields["namespace"] == NullableStr(dep.metadata.value.namespace)
      && (r.value.fields["replicas"] == JNull <==> dep.spec.value.replicas.None?)
      && r.value.fields["replicas"] == NullableInt(dep.spec.value.replicas)
      && (r.value.fields["available_replicas"] == JNull <==> dep.status.value.availableReplicas.None?)
      && r.value.fields["available_replicas"] == NullableInt(dep.status.value.availableReplicas)
      && r.value.fields["strategy"] == NullableStr(dep.spec.value.strategy.value.strategyType)
      && r.value.fields["creation_timestamp"] ==
           JStr(rt.isoformat(dep.metadata.value.creationTimestamp.value))
  {
    if dep.metadata.None? then Failure(NoneHasNo("name"))
    else if dep.spec.None? then Failure(NoneHasNo("replicas"))
    else if dep.status.None? then Failure(NoneHasNo("available_replicas"))
    else if dep.spec.value.strategy.None? then Failure(NoneHasNo("type"))
    else if dep.metadata.value.creationTimestamp.None? then Failure(NoneHasNo("isoformat"))
    else
      var meta, spec := dep.metadata.value, dep.spec.value;
      Success(JObj(map[
        "name" := NullableStr(meta.name),
        "namespace" := NullableStr(meta.namespace),
        "replicas" := NullableInt(spec.replicas),
        "available_replicas" := NullableInt(dep.status.value.availableReplicas),
        "strategy" := NullableStr(spec.strategy.value.strategyType),
        "creation_timestamp" := JStr(rt.isoformat(meta.creationTimestamp.value))]))
  }

  // ---------------------------------------------------------------------------
  // The accessor's operations

  /**
   * `get_namespaces()`: a failing control-plane call fails the operation with the same
   * text; otherwise one record per native namespace, in order, or the first projection
   * error and no list at all.
   */
  function GetNamespaces(cp: ControlPlane, rt: Runtime): (r: Result<seq<Json>, string>)
    ensures cp.listNamespace.Failure? ==> r == Failure(cp.listNamespace.error)
    ensures cp.listNamespace.Success? ==>
      var items := cp.listNamespace.value;
      && (r.Success? <==> forall i :: 0 <= i < |items| ==> NamespaceRecord(rt, items[i]).Success?)
      && (r.Success? ==>
            && |r.value| == |items|
            && forall i :: 0 <= i < |items| ==> NamespaceRecord(rt, items[i]) == Success(r.value[i]))
      && (r.Failure? ==>
            exists k :: 0 <= k < |items| && NamespaceRecord(rt, items[k]) == Failure(r.error)
                 && forall i :: 0 <= i < k ==> NamespaceRecord(rt, items[i]).Success?)
  {
    match cp.listNamespace
    case Failure(e) => Failure(e)
    case Success(items) => ProjectAll(ns => NamespaceRecord(rt, ns), items)
  }

  /** `get_pods(namespace)`: as `GetNamespaces`, over the pods of `namespace`. */
  function GetPods(cp: ControlPlane, rt: Runtime, namespace: Json := DefaultNamespace): (r: Result<seq<Json>, string>)
    ensures cp.listNamespacedPod(namespace).Failure? ==>
      r == Failure(cp.listNamespacedPod(namespace).error)
    ensures cp.listNamespacedPod(namespace).Success? ==>
      var items := cp.listNamespacedPod(namespace).value;
      && (r.Success? <==> forall i :: 0 <= i < |items| ==> PodRecord(rt, items[i]).Success?)
      && (r.Success? ==>
            && |r.value| == |items|
            && forall i :: 0 <= i < |items| ==> PodRecord(rt, items[i]) == Success(r.value[i]))
      && (r.Failure? ==>
            exists k :: 0 <= k < |items| && PodRecord(rt, items[k]) == Failure(r.error)
                 && forall i :: 0 <= i < k ==> PodRecord(rt, items[i]).Success?)
  {
    match cp.listNamespacedPod(namespace)
    case Failure(e) => Failure(e)
    case Success(items) => ProjectAll(pod => PodRecord(rt, pod), items)
  }

  /** `get_services(namespace)`: as `GetNamespaces`, over the services of `namespace`. */
  function GetServices(cp: ControlPlane, namespace: Json := DefaultNamespace): (r: Result<seq<Json>, string>)
    ensures cp.listNamespacedService(namespace).Failure? ==>
      r == Failure(cp.listNamespacedService(namespace).error)
    ensures cp.listNamespacedService(namespace).Success? ==>
      var items := cp.listNamespacedService(namespace).value;
      && (r.Success? <==> forall i :: 0 <= i < |items| ==> ServiceRecord(items[i]).Success?)
      && (r.Success? ==>
            && |r.value| == |items|
            && forall i :: 0 <= i < |items| ==> ServiceRecord(items[i]) == Success(r.value[i]))
      && (r.Failure? ==>
            exists k :: 0 <= k < |items| && ServiceRecord(items[k]) == Failure(r.error)
                 && forall i :: 0 <= i < k ==> ServiceRecord(items[i]).Success?)
  {
    match cp.listNamespacedService(namespace)
    case Failure(e) => Failure(e)
    case Success(items) => ProjectAll(ServiceRecord, items)
  }

  /** `get_deployments(namespace)`: as `GetNamespaces`, over the deployments of `namespace`. */
  function GetDeployments(cp: ControlPlane, rt: Runtime, namespace: Json := DefaultNamespace): (r: Result<seq<Json>, string>)
    ensures cp.listNamespacedDeployment(namespace).Failure? ==>
      r == Failure(cp.listNamespacedDeployment(namespace).error)
    ensures cp.listNamespacedDeployment(namespace).Success? ==>
      var items := cp.listNamespacedDeployment(namespace).value;
      && (r.Success? <==> forall i :: 0 <= i < |items| ==> DeploymentRecord(rt, items[i]).Success?)
      && (r.Success? ==>
            && |r.value| == |items|
            && forall i :: 0 <= i < |items| ==> DeploymentRecord(rt, items[i]) == Success(r.value[i]))
      && (r.Failure? ==>
            exists k :: 0 <= k < |items| && DeploymentRecord(rt, items[k]) == Failure(r.error)
                 && forall i :: 0 <= i < k ==> DeploymentRecord(rt, items[i]).Success?)
  {
    match cp.listNamespacedDeployment(namespace)
    case Failure(e) => Failure(e)
    case Success(items) => ProjectAll(dep => DeploymentRecord(rt, dep), items)
  }

  /** The acknowledgment text of `execute_command`. */
  function Acknowledgment(command: string, namespace: string): string
  {
    "Command '" + command + "' executed in namespace '" + namespace + "'"
  }

  /**
   * `execute_command(command, namespace)`: a placeholder that never reaches the control
   * plane and always reports success, with a null `result`.
   */
  function ExecuteCommand(rt: Runtime, command: Json, namespace: Json := DefaultNamespace): (r: Json)
    ensures r.JObj? && r.fields.Keys == {"status", "message", "result"}
    ensures r.fields["status"] == JStr("success")
    ensures r.fields["result"] == JNull
    ensures r.fields["message"] == JStr(Acknowledgment(Str(rt, command), Str(rt, namespace)))
  {
    JObj(map[
      "status" := JStr("success"),
      "message" := JStr(Acknowledgment(Str(rt, command), Str(rt, namespace))),
      "result" := JNull])
  }

  // ---------------------------------------------------------------------------
  // Properties

  /**
   * The acknowledgment quotes the command and the namespace verbatim, each between
   * single quotes, at fixed places: after "Command '" and before the final "'".
   */
  lemma AcknowledgmentQuotes(command: string, namespace: string)
    ensures var m := Acknowledgment(command, namespace);
      && |m| == |command| + |namespace| + 35
      && m[..9] == "Command '"
      && m[9..9 + |command|] == command
      && m[9 + |command|..|m| - |namespace| - 1] == "' executed in namespace '"
      && m[|m| - |namespace| - 1..|m| - 1] == namespace
      && m[|m| - 1] == '\''
  {
  }

  /** Called without a namespace, every namespaced operation queries "default". */
  lemma NamespaceDefaultsToDefault(cp: ControlPlane, rt: Runtime, command: Json)
    ensures GetPods(cp, rt) == GetPods(cp, rt, JStr("default"))
    ensures GetServices(cp) == GetServices(cp, JStr("default"))
    ensures GetDeployments(cp, rt) == GetDeployments(cp, rt, JStr("default"))
    ensures ExecuteCommand(rt, command) == ExecuteCommand(rt, command, JStr("default"))
  {
  }
}
