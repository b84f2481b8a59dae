# Kubernetes MCP server core, modelled in Dafny

This project models the core of a small server. The server exposes namespaces, pods,
services and deployments of a Kubernetes cluster over a message channel.

- **Message router** (`MCPHandler`, `src/mcp/protocol.py`), module `Protocol`. It checks
  that an inbound message is a dictionary with a `type` key. It looks `type` up in a table
  of five operations and fills in the `namespace` default. `execute_command` also needs a
  `command` key. The router then calls the accessor and wraps the outcome in one of two
  envelopes: `{status: "success", type: "<kind>_response", data}` or
  `{status: "error", type: "error_response", message}`.
- **Resource accessor** (`KubernetesClient`, `src/k8s/client.py`), module `KubeClient`.
  Each listing asks the control plane for native records and projects each one, field by
  field, into a plain dictionary. `execute_command` is a placeholder that only builds an
  acknowledgment.

Everything is pure. Python dictionaries and decoded JSON are the `Json` datatype
(`PyValues`). A raised exception is a `Failure` that carries the exception's `str()`.

The control plane is an oracle, the `ControlPlane` datatype. It holds the answer of
`list_namespace()` and, for each namespace argument, the answers of the three
`list_namespaced_*` calls. Each answer is the native items or the text of a failure.

Native records keep the Kubernetes client's shape: every nested object and every scalar
may be `None`. The model also covers what the code does when a nested object is missing.
Then `None.attr` raises `'NoneType' object has no attribute 'attr'`, and the whole
listing fails with that text. The error comes from the first failing item in list order
and, within that item, from the first failing key in dictionary-literal order. This is
the same all-or-nothing rule as a failing control-plane call.

Three Python renderings are left uninterpreted. They sit in the `Runtime` parameter:
`datetime.isoformat()`, `str()` of a JSON value that is not a string (`None`, a bool, a
number), and the text of the `TypeError` raised when a list or a dict is used as a
dictionary key. That text depends on the interpreter version. `str()` of a string is
the string itself.

The check at `src/mcp/protocol.py:20` only tests that `type` is present, not that it is
a string. So:

- a `type` that is `null`, a bool or a number gets `"Unknown message type: " + str(type)`;
- a `type` that is a list or a dict makes the handler lookup raise. The error envelope
  then carries the `TypeError` text.

## Model

| member | source | states |
|---|---|---|
| `KubeClient.ProjectAll` | src/k8s/client.py:27-37 | The list comprehension succeeds exactly when every item projects. On success it returns one record per item, same length and order. On failure it returns no list: its error is that of the first failing item, and every earlier item succeeded. |
| `KubeClient.NamespaceRecord` | src/k8s/client.py:28-32 | A namespace record has exactly `name`, `status` (the phase) and `creation_timestamp` (isoformat of the native timestamp). Null name/phase stay null. A missing metadata, status or timestamp raises the matching AttributeError. With all three present, the projection succeeds. |
| `KubeClient.PodRecord` | src/k8s/client.py:44-51 | A pod record has exactly six keys: name, namespace, phase, `pod_ip` as `ip`, `node_name` as `node`, and the timestamp. `ip` and `node` are null exactly when the native field is null. A missing metadata, status, spec or timestamp raises the matching AttributeError. With all four present, the projection succeeds. |
| `KubeClient.TargetPortValue` | src/k8s/client.py:72 | `target_port` passes through: null exactly when the native value is null, the number for a numeric port, the name for a named port. |
| `KubeClient.PortRecord` | src/k8s/client.py:70-74 | A port entry has exactly `port`, `target_port` and `protocol`, passed through with nulls kept. |
| `KubeClient.PortRecords` | src/k8s/client.py:68-79 | `ports` is `[]` when the native ports are null or empty. Otherwise it has one entry per native port, in order. |
| `KubeClient.ServiceRecord` | src/k8s/client.py:63-80 | A service record has exactly name, namespace, `cluster_ip`, `type` and `ports`. It fails only when metadata or spec is missing. |
| `KubeClient.DeploymentRecord` | src/k8s/client.py:92-99 | A deployment record has exactly six keys. `replicas` and `available_replicas` pass through and are null exactly when the native value is null. `strategy` is `spec.strategy.type`. Each missing nested object raises its AttributeError, in key order. With metadata, spec, status, strategy and timestamp present, the projection succeeds. |
| `KubeClient.GetNamespaces` | src/k8s/client.py:23-37 | A failing control-plane call fails with the same text. Otherwise the operation succeeds exactly when every namespace projects: one record per item, same length and order. Failing, it returns no partial list and carries the first failing item's projection error; every earlier item projected. |
| `KubeClient.GetPods` | src/k8s/client.py:39-56 | The same all-or-nothing, length- and order-preserving listing over the pods the control plane returns for the given namespace. |
| `KubeClient.GetServices` | src/k8s/client.py:58-85 | The same over the services of the given namespace. |
| `KubeClient.GetDeployments` | src/k8s/client.py:87-106 | The same over the deployments of the given namespace. |
| `KubeClient.ExecuteCommand` | src/k8s/client.py:108-118 | The result has exactly `status: "success"`, `result: null` and the acknowledgment message built from `str(command)` and `str(namespace)`. No control plane is involved: the function does not take one. |
| `KubeClient.AcknowledgmentQuotes` | src/k8s/client.py:116 | The message that `KubeClient.Acknowledgment` builds is `Command '` followed by the command verbatim, then `' executed in namespace '`, then the namespace verbatim, then `'`. Each piece sits at a fixed position. |
| `KubeClient.NamespaceDefaultsToDefault` | src/k8s/client.py:39 | Called without a namespace, get_pods, get_services, get_deployments and execute_command (lines 39, 58, 87, 109) use `"default"`. |
| `Protocol.OperationNamed` | src/mcp/protocol.py:24-32 | The handler table has exactly the five names. A name finds an operation if and only if it is one of them, and then exactly the operation of that name. |
| `Protocol.Envelope.ToJson` | src/mcp/protocol.py:99-101 | An error response has exactly `status: "error"`, `type: "error_response"` and `message`. A success response (lines 46-50, 59, 68, 77-81, 95) has exactly `status: "success"`, `type` and `data`. |
| `Protocol.EnvelopeRoundTrip` | src/mcp/protocol.py:46-50 | Every response dictionary reads back as the envelope it came from. |
| `Protocol.EnvelopeShapesOnly` | src/mcp/protocol.py:95-101 | A dictionary that reads as an envelope is exactly that envelope's dictionary. The two shapes are the only responses, and each has no other keys. |
| `Protocol.NamespaceArgument` | src/mcp/protocol.py:57 | The namespace passed on is the message's `namespace` value when present (any JSON value, null included), and `"default"` when absent. |
| `Protocol.HandleMessage` | src/mcp/protocol.py:16-40 | A non-dictionary or a message without `type` gets "Invalid message format". An unknown string type gets "Unknown message type: " + type. A null, bool or number type gets the same text with its `str()`. A list or dict type gets the runtime's unhashable-key `TypeError` text. The table lookup of lines 32-34 is the helper `LookUpHandler`. A success envelope only answers a known operation, and its `type` is that operation's response type. |
| `Protocol.GetNamespacesRouted` | src/mcp/protocol.py:42-52 | Covers `HandleGetNamespaces`. get_namespaces: on success the envelope is `namespaces_response` with the accessor's list unchanged as `data`. An accessor failure becomes the error envelope with its text. `namespace` is not consulted. |
| `Protocol.GetPodsRouted` | src/mcp/protocol.py:54-61 | Covers `HandleGetPods`. get_pods: the accessor receives the given namespace, or "default" when absent. Its list becomes `data` of `pods_response` unchanged, and its failure becomes the error envelope. |
| `Protocol.GetServicesRouted` | src/mcp/protocol.py:63-70 | Covers `HandleGetServices`. get_services: as get_pods, with `services_response`. |
| `Protocol.GetDeploymentsRouted` | src/mcp/protocol.py:72-83 | Covers `HandleGetDeployments`. get_deployments: as get_pods, with `deployments_response`. |
| `Protocol.ExecuteCommandRouted` | src/mcp/protocol.py:85-97 | Covers `HandleExecuteCommand`. execute_command without `command` gets "Command not specified". With it, `data` of `command_response` is the accessor's acknowledgment for that command and the requested namespace. |
| `Protocol.ControlPlaneOnlyForListings` | src/mcp/protocol.py:18-36 | Malformed messages, unknown types and execute_command get the same response whatever the control plane holds. The control plane is consulted only by the four listings. |
| `Protocol.OneRunningPodScenario` | src/mcp/protocol.py:54-59 | A get_pods request for "kube-system" against one running pod gives exactly the expected six-field record inside a `pods_response`. |
| `Protocol.NoServicesScenario` | src/mcp/protocol.py:63-68 | A get_services request without namespace against an empty "default" gives `{status: "success", type: "services_response", data: []}`. |

## Left out

- The WebSocket endpoint, JSON text decoding, the health route, CORS and static files
  (`src/main.py`) are transport plumbing. The model starts from an already decoded
  message.
- The React UI (`ui/src/App.tsx`) only displays responses.
- `KubernetesClient.__init__` (kubeconfig loading, API handles) and the real `list_*`
  calls are foreign library code. They are represented only by the `ControlPlane` oracle.
  `custom_objects` is never used by the core.
- `async`/`await` and logging have no effect on results, so the model is sequential and
  silent.
- The exact text of `datetime.isoformat()` and of `str()` on non-string values is not
  modelled. Both are uninterpreted functions in `Runtime`. The failure texts of
  control-plane exceptions are opaque strings in the oracle.
- JSON floats are `real` values. Their binary rounding plays no part in the core. The
  non-finite values `NaN`, `Infinity` and `-Infinity`, which `json.loads` accepts, have
  no `real` counterpart, so a `type` or `namespace` holding one cannot be expressed.
- Exceptions that only the Python runtime could raise while building the dictionaries
  (out of memory, say) are not modelled.
