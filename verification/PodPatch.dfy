/** The patch the webhook answers with, and the pod it makes. */
module PodPatch {
  import opened Wrappers
  import opened Text
  import opened AgentFlags
  import opened Contract
  import opened JsonPatch

  /** What the webhook itself contributes: its pull secret, and for each agent the image, the
      resources, the security context, the environment, the ports and the probes. */
  datatype Webhook = Webhook(
    pullSecret: Option<string>,
    looks: bool -> map<string, Json>,
    extraLooks: (Extra, bool) -> map<string, Json>)

  const STATUS := "dynamic-config.rs/status"
  const INJECTED := "injected"

  function HasInit(mode: Mode): bool {
    mode.Init? || mode.Both?
  }

  function HasAgent(mode: Mode): bool {
    mode.Sidecar? || mode.Both?
  }

  function WordsOf(texts: seq<string>): (words: seq<Json>)
    ensures |words| == |texts|
  {
    if texts == [] then [] else [JsonPatch.Word(texts[0])] + WordsOf(texts[1..])
  }

  function Field(json: Json, key: string): Option<Json> {
    if json.Object? && key in json.fields then Some(json.fields[key]) else None
  }

  function NameOf(json: Json): Option<string> {
    match Field(json, "name")
    case Some(Word(name)) => Some(name)
    case _ => None
  }

  // ----- volumes --------------------------------------------------------------------

  function Named(name: string, fields: map<string, Json>): Json {
    Object(fields["name" := JsonPatch.Word(name)])
  }

  function ConfigMapVolume(name: string, configMap: string): Json {
    Named(name, map["configMap" := Object(map["name" := JsonPatch.Word(configMap)])])
  }

  function SecretVolume(name: string, secret: string, mode: int): Json {
    Named(name, map["secret" := Object(map["secretName" := JsonPatch.Word(secret), "defaultMode" := JsonPatch.Number(mode)])])
  }

  function RenderedVolume(memory: bool): Json {
    var limit := map["sizeLimit" := JsonPatch.Word("16Mi")];
    Named("dynamic-config",
          map["emptyDir" := Object(if memory then limit["medium" := JsonPatch.Word("Memory")] else limit)])
  }

  function MapVolume(name: string, ref: Option<ObjectRef>): seq<Json> {
    match ref
    case Some(target) => [ConfigMapVolume(name, target.name)]
    case None => []
  }

  /** A key only its owner may read. */
  function SshVolume(name: string, ref: Option<ObjectRef>): seq<Json> {
    match ref
    case Some(target) => [SecretVolume(name, target.name, 0x100)]
    case None => []
  }

  function OpenSecretVolume(name: string, secret: Option<string>): seq<Json> {
    match secret
    case Some(target) => [SecretVolume(name, target, 0x124)]
    case None => []
  }

  function ExtraVolumes(extra: Extra): seq<Json> {
    MapVolume("dynamic-config-ca-" + extra.name, extra.ca)
    + SshVolume("dynamic-config-ssh-" + extra.name, extra.ssh)
    + OpenSecretVolume("dynamic-config-client-tls-" + extra.name, extra.tls)
    + MapVolume("dynamic-config-template-" + extra.name, extra.template)
  }

  function AllExtraVolumes(extra: seq<Extra>): seq<Json>
    decreases |extra|
  {
    if extra == [] then [] else AllExtraVolumes(extra[..|extra| - 1]) + ExtraVolumes(extra[|extra| - 1])
  }

  function VolumePart(request: Request, rank: nat): seq<Json> {
    match rank
    case 0 => [RenderedVolume(request.volumeMemory)]
    case 1 => MapVolume("dynamic-config-ca", request.ca)
    case 2 => SshVolume("dynamic-config-ssh", request.ssh)
    case 3 => OpenSecretVolume("dynamic-config-extra", request.extraSecret)
    case 4 => MapVolume("dynamic-config-canary", request.canary)
    case 5 => OpenSecretVolume("dynamic-config-client-tls", request.tls)
    case 6 => AllExtraVolumes(request.extra)
    case 7 => MapVolume("dynamic-config-template", request.template)
    case 8 => MapVolume("dynamic-config-schema", request.schema)
    case _ => []
  }

  function Volumes(request: Request): seq<Json> {
    Concat((rank: nat) => VolumePart(request, rank), 9)
  }

  // ----- mounts ---------------------------------------------------------------------

  function Mount(request: Request): Json {
    Named("dynamic-config", map["mountPath" := JsonPatch.Word(request.directory)])
  }

  function ReadOnly(name: string, path: string): Json {
    Named(name, map["mountPath" := JsonPatch.Word(path), "readOnly" := JsonPatch.Bool(true)])
  }

  function MountWhen<T>(value: Option<T>, name: string, path: string): seq<Json> {
    if value.Some? then [ReadOnly(name, path)] else []
  }

  function MountPart(request: Request, rank: nat): seq<Json> {
    match rank
    case 0 => [Mount(request)]
    case 1 => MountWhen(request.ca, "dynamic-config-ca", "/etc/dynamic-config/ca")
    case 2 => MountWhen(request.ssh, "dynamic-config-ssh", "/etc/dynamic-config/ssh")
    case 3 => MountWhen(request.canary, "dynamic-config-canary", CANARY_MOUNT)
    case 4 => MountWhen(request.extraSecret, "dynamic-config-extra", "/etc/dynamic-config/extra")
    case 5 => MountWhen(request.tls, "dynamic-config-client-tls", "/etc/dynamic-config/tls")
    case 6 => MountWhen(request.template, "dynamic-config-template", "/etc/dynamic-config/template")
    case 7 => MountWhen(request.schema, "dynamic-config-schema", "/etc/dynamic-config/schema")
    case _ => []
  }

  function AgentMounts(request: Request): seq<Json> {
    Concat((rank: nat) => MountPart(request, rank), 8)
  }

  function ExtraMounts(request: Request, extra: Extra): seq<Json> {
    [Mount(request)]
    + MountWhen(extra.ca, "dynamic-config-ca-" + extra.name, "/etc/dynamic-config/ca-" + extra.name)
    + MountWhen(extra.ssh, "dynamic-config-ssh-" + extra.name, "/etc/dynamic-config/ssh-" + extra.name)
    + MountWhen(extra.tls, "dynamic-config-client-tls-" + extra.name, "/etc/dynamic-config/tls-" + extra.name)
    + MountWhen(extra.template, "dynamic-config-template-" + extra.name, "/etc/dynamic-config/template-" + extra.name)
  }

  // ----- the agents -----------------------------------------------------------------

  function Container(name: string, arguments: seq<string>, mounts: seq<Json>, looks: map<string, Json>): Json {
    Object(looks["args" := Array(WordsOf(arguments))]["volumeMounts" := Array(mounts)]["name" := JsonPatch.Word(name)])
  }

  function AgentName(watch: bool): string {
    if watch then "dynamic-config-agent" else "dynamic-config-init"
  }

  function Agent(request: Request, webhook: Webhook, watch: bool): Json {
    Container(AgentName(watch), CommandLine(Items(request, watch)), AgentMounts(request), webhook.looks(watch))
  }

  function ExtraAgent(request: Request, webhook: Webhook, extra: Extra, watch: bool): Json {
    Container(AgentName(watch) + "-" + extra.name, CommandLine(ExtraItems(extra, watch)),
              ExtraMounts(request, extra), webhook.extraLooks(extra, watch))
  }

  function ExtraAgents(request: Request, webhook: Webhook, extra: seq<Extra>, watch: bool): seq<Json> {
    if extra == [] then []
    else [ExtraAgent(request, webhook, extra[0], watch)] + ExtraAgents(request, webhook, extra[1..], watch)
  }

  /** The default render's agent and then the named ones, in the pod's order. */
  function Agents(request: Request, webhook: Webhook, watch: bool): seq<Json> {
    [Agent(request, webhook, watch)] + ExtraAgents(request, webhook, request.extra, watch)
  }

  /** A sidecar among the init containers, which restarts always. */
  function Always(containers: seq<Json>): seq<Json> {
    if containers == [] then []
    else
      [if containers[0].Object?
       then Object(containers[0].fields["restartPolicy" := JsonPatch.Word("Always")])
       else containers[0]] + Always(containers[1..])
  }

  // ----- one container of the pod ---------------------------------------------------

  predicate Selected(request: Request, container: Json) {
    match request.injectContainers
    case None => true
    case Some(names) => NameOf(container).Some? && NameOf(container).value in names
  }

  predicate Wrapped(request: Request, container: Json) {
    request.envInject.Some? && NameOf(container) == request.envInject
  }

  function Script(request: Request): string {
    if request.envRestart then
      "set -a; . " + request.path + "; set +a; export DYNAMIC_CONFIG_ENV_FINGERPRINT=\"$(cksum < " + request.path
      + ")\"; exec \"$@\""
    else "set -a; . " + request.path + "; set +a; exec \"$@\""
  }

  function Prefix(request: Request): seq<Json> {
    WordsOf(["/bin/sh", "-c", Script(request), "dynamic-config-env"])
  }

  function Probe(request: Request): Json {
    var test := "test \"$(cksum < " + request.path + ")\" = \"$DYNAMIC_CONFIG_ENV_FINGERPRINT\"";
    var period := if request.watchSeconds < 10 then 10 else if request.watchSeconds > 120 then 120 else request.watchSeconds;
    Object(map["exec" := Object(map["command" := Array(WordsOf(["/bin/sh", "-c", test]))]),
               "periodSeconds" := JsonPatch.Number(period),
               "failureThreshold" := JsonPatch.Number(1)])
  }

  /** The container with the rendered volume mounted last. */
  function Mounted(request: Request, fields: map<string, Json>): map<string, Json> {
    fields["volumeMounts" := Array(ArrayAt(fields, "volumeMounts") + [Mount(request)])]
  }

  /** The container whose command is the wrapper, its own command and its arguments. */
  function Rewrapped(request: Request, fields: map<string, Json>): map<string, Json> {
    var command := Array(Prefix(request) + ArrayAt(fields, "command") + ArrayAt(fields, "args"));
    var wrapped := fields["command" := command] - {"args"};
    if request.envRestart then wrapped["livenessProbe" := Probe(request)] else wrapped
  }

  function InjectedContainer(request: Request, container: Json): Json
    requires container.Object?
  {
    var wrapped := if Wrapped(request, container) then Rewrapped(request, container.fields) else container.fields;
    Object(if Selected(request, container) then Mounted(request, wrapped) else wrapped)
  }

  function MountOps(request: Request, container: Json): seq<Op> {
    if container.Object? && Selected(request, container)
    then Into(container.fields, "volumeMounts", Appends([Mount(request)]))
    else []
  }

  function WrapOps(request: Request, container: Json): seq<Op> {
    if container.Object? && Wrapped(request, container) then
      [Replace(["command"], Array(Prefix(request) + ArrayAt(container.fields, "command") + ArrayAt(container.fields, "args")))]
      + (if "args" in container.fields then [Remove(["args"])] else [])
      + (if request.envRestart then [Add(["livenessProbe"], Probe(request))] else [])
    else []
  }

  lemma MountRuns(request: Request, container: Json)
    requires container.Object? && ("volumeMounts" in container.fields ==> container.fields["volumeMounts"].Array?)
    ensures Run(container, MountOps(request, container)) ==
              Ok(Object(if Selected(request, container) then Mounted(request, container.fields) else container.fields))
  {
    hide Run, Selected, Mount;
    if Selected(request, container) {
      RunAppends(ArrayAt(container.fields, "volumeMounts"), [Mount(request)]);
      RunInto(container.fields, "volumeMounts", Appends([Mount(request)]),
              ArrayAt(container.fields, "volumeMounts") + [Mount(request)]);
    } else {
      RunNothing(container);
    }
  }

  lemma RunNothing(json: Json)
    ensures Run(json, []) == Ok(json)
  {
  }

  /** The wrapper, written from the pod as it came, on a container the mount already changed. */
  lemma WrapRuns(request: Request, container: Json, now: map<string, Json>)
    requires container.Object? && (Wrapped(request, container) ==> "command" in container.fields)
    requires forall key :: key != "volumeMounts" ==>
               (key in now <==> key in container.fields) && (key in now ==> now[key] == container.fields[key])
    ensures Run(Object(now), WrapOps(request, container)) ==
              Ok(Object(if Wrapped(request, container) then Rewrapped(request, now) else now))
  {
    hide Wrapped, Prefix, Probe;
    if Wrapped(request, container) {
      assert ArrayAt(now, "command") == ArrayAt(container.fields, "command");
      assert ArrayAt(now, "args") == ArrayAt(container.fields, "args");
      var value := Array(Prefix(request) + ArrayAt(now, "command") + ArrayAt(now, "args"));
      var first := now["command" := value];
      var replace := [Replace(["command"], value)];
      var remove := if "args" in now then [Remove(["args"])] else [];
      var probe := if request.envRestart then [Add(["livenessProbe"], Probe(request))] else [];
      assert WrapOps(request, container) == replace + remove + probe;
      RunJoin(Object(now), replace + remove, probe);
      RunJoin(Object(now), replace, remove);
      RunOne(Object(now), replace[0], Object(first));
      hide Run;
      if "args" in now {
        RunOne(Object(first), remove[0], Object(first - {"args"}));
      } else {
        RunNothing(Object(first));
        assert first - {"args"} == first;
      }
      var second := first - {"args"};
      if request.envRestart {
        RunOne(Object(second), probe[0], Object(second["livenessProbe" := Probe(request)]));
      } else {
        RunNothing(Object(second));
      }
    } else {
      RunNothing(Object(now));
    }
  }

  // ----- the pod --------------------------------------------------------------------

  predicate ArrayIf(fields: map<string, Json>, key: string) {
    key in fields ==> fields[key].Array?
  }

  predicate ContainerOk(request: Request, container: Json) {
    && container.Object? && ArrayIf(container.fields, "volumeMounts")
    && (Wrapped(request, container) ==> "command" in container.fields)
  }

  predicate ContainersOk(request: Request, containers: seq<Json>) {
    forall k :: 0 <= k < |containers| ==> containers[k].Object? && ContainerOk(request, containers[k])
  }

  /** A pod spec as the API server sends it. */
  predicate SpecShape(spec: map<string, Json>) {
    && "containers" in spec && spec["containers"].Array?
    && ArrayIf(spec, "volumes") && ArrayIf(spec, "initContainers") && ArrayIf(spec, "imagePullSecrets")
    && forall k :: 0 <= k < |spec["containers"].items| ==>
         spec["containers"].items[k].Object? && ArrayIf(spec["containers"].items[k].fields, "volumeMounts")
  }

  predicate PodShape(pod: Json) {
    && pod.Object?
    && "metadata" in pod.fields && pod.fields["metadata"].Object?
    && ("annotations" in pod.fields["metadata"].fields ==> pod.fields["metadata"].fields["annotations"].Object?)
    && "spec" in pod.fields && pod.fields["spec"].Object? && SpecShape(pod.fields["spec"].fields)
  }

  /** And a wrapped container has a command, or the request is refused. */
  predicate SpecOk(request: Request, spec: map<string, Json>) {
    SpecShape(spec) && ContainersOk(request, spec["containers"].items)
  }

  predicate PodOk(request: Request, pod: Json) {
    PodShape(pod) && SpecOk(request, pod.fields["spec"].fields)
  }

  // ----- the pod that is meant ------------------------------------------------------

  function InjectedContainers(request: Request, containers: seq<Json>): (out: seq<Json>)
    requires forall k :: 0 <= k < |containers| ==> containers[k].Object?
    ensures |out| == |containers|
    ensures forall k :: 0 <= k < |containers| ==> out[k] == InjectedContainer(request, containers[k])
  {
    if containers == [] then []
    else [InjectedContainer(request, containers[0])] + InjectedContainers(request, containers[1..])
  }

  /** The agent that runs once goes in front of the pod's own init containers when the pod
      asks for that; everything else goes after them, in order. */
  function InitsBefore(request: Request, webhook: Webhook): seq<Json> {
    if HasInit(request.mode) && request.initFirst then [Agent(request, webhook, false)] else []
  }

  function InitsAfter(request: Request, webhook: Webhook): seq<Json> {
    (if HasInit(request.mode) then
       (if request.initFirst then [] else [Agent(request, webhook, false)])
       + ExtraAgents(request, webhook, request.extra, false)
     else [])
    + (if HasAgent(request.mode) && request.nativeSidecar then Always(Agents(request, webhook, true)) else [])
  }

  function Sidecars(request: Request, webhook: Webhook): seq<Json> {
    if HasAgent(request.mode) && !request.nativeSidecar then Agents(request, webhook, true) else []
  }

  function PullSecrets(webhook: Webhook): seq<Json> {
    match webhook.pullSecret
    case Some(name) => [Object(map["name" := JsonPatch.Word(name)])]
    case None => []
  }

  predicate TouchesInits(request: Request) {
    HasInit(request.mode) || (HasAgent(request.mode) && request.nativeSidecar)
  }

  /** The injected spec: volumes appended, containers injected in place with the sidecars
      after them, init containers around the pod's own, a pull secret appended. */
  function InjectedSpec(request: Request, webhook: Webhook, spec: map<string, Json>): map<string, Json>
    requires SpecOk(request, spec)
  {
    var volumes := Array(ArrayAt(spec, "volumes") + Volumes(request));
    var containers := Array(InjectedContainers(request, spec["containers"].items) + Sidecars(request, webhook));
    var inits := Array(InitsBefore(request, webhook) + ArrayAt(spec, "initContainers") + InitsAfter(request, webhook));
    var secrets := Array(ArrayAt(spec, "imagePullSecrets") + PullSecrets(webhook));
    var out := spec["volumes" := volumes]["containers" := containers];
    var pulled := if webhook.pullSecret.Some? then out["imagePullSecrets" := secrets] else out;
    if TouchesInits(request) then pulled["initContainers" := inits] else pulled
  }

  function MarkedMetadata(metadata: map<string, Json>): map<string, Json>
    requires "annotations" in metadata ==> metadata["annotations"].Object?
  {
    var annotations := if "annotations" in metadata then metadata["annotations"].fields else map[];
    metadata["annotations" := Object(annotations[STATUS := JsonPatch.Word(INJECTED)])]
  }

  function Injected(request: Request, webhook: Webhook, pod: Json): Json
    requires PodOk(request, pod)
  {
    var metadata := Object(MarkedMetadata(pod.fields["metadata"].fields));
    var spec := Object(InjectedSpec(request, webhook, pod.fields["spec"].fields));
    Object(pod.fields["metadata" := metadata]["spec" := spec])
  }

  // ----- the patch that is written --------------------------------------------------

  function MarkOps(metadata: map<string, Json>): seq<Op> {
    (if "annotations" in metadata then [] else [Add(["annotations"], Object(map[]))])
    + [Add(["annotations", STATUS], JsonPatch.Word(INJECTED))]
  }

  function MountLists(request: Request, containers: seq<Json>): (lists: seq<seq<Op>>)
    ensures |lists| == |containers|
    ensures forall k :: 0 <= k < |containers| ==> lists[k] == MountOps(request, containers[k])
  {
    if containers == [] then [] else [MountOps(request, containers[0])] + MountLists(request, containers[1..])
  }

  function WrapLists(request: Request, containers: seq<Json>): (lists: seq<seq<Op>>)
    ensures |lists| == |containers|
    ensures forall k :: 0 <= k < |containers| ==> lists[k] == WrapOps(request, containers[k])
  {
    if containers == [] then [] else [WrapOps(request, containers[0])] + WrapLists(request, containers[1..])
  }

  function InitOps(request: Request, webhook: Webhook): seq<Op> {
    [Add([if request.initFirst then "0" else "-"], Agent(request, webhook, false))]
    + Appends(ExtraAgents(request, webhook, request.extra, false))
  }

  /** A list of init containers is created for the sidecars only when the agent that runs
      once has not made it already. */
  function StayOps(request: Request, webhook: Webhook, spec: map<string, Json>): seq<Op> {
    if !HasAgent(request.mode) then []
    else if !request.nativeSidecar then Under("containers", Appends(Agents(request, webhook, true)))
    else if request.mode.Both? then Under("initContainers", Appends(Always(Agents(request, webhook, true))))
    else Into(spec, "initContainers", Appends(Always(Agents(request, webhook, true))))
  }

  function AgentOps(request: Request, webhook: Webhook, spec: map<string, Json>): seq<Op> {
    (if HasInit(request.mode) then Into(spec, "initContainers", InitOps(request, webhook)) else [])
    + StayOps(request, webhook, spec)
  }

  function PullOps(webhook: Webhook, spec: map<string, Json>): seq<Op> {
    if webhook.pullSecret.Some? then Into(spec, "imagePullSecrets", Appends(PullSecrets(webhook))) else []
  }

  function Containers(spec: map<string, Json>): seq<Json> {
    ArrayAt(spec, "containers")
  }

  function SpecOps(request: Request, webhook: Webhook, spec: map<string, Json>): seq<Op> {
    Into(spec, "volumes", Appends(Volumes(request)))
    + Under("containers", Each(MountLists(request, Containers(spec))))
    + PullOps(webhook, spec)
    + Under("containers", Each(WrapLists(request, Containers(spec))))
    + AgentOps(request, webhook, spec)
  }

  function FieldsAt(json: Json, key: string): map<string, Json> {
    match Field(json, key)
    case Some(Object(fields)) => fields
    case _ => map[]
  }

  function Patch(request: Request, webhook: Webhook, pod: Json): seq<Op> {
    Under("metadata", MarkOps(FieldsAt(pod, "metadata")))
    + Under("spec", SpecOps(request, webhook, FieldsAt(pod, "spec")))
  }

  // ----- the patch makes the pod ----------------------------------------------------

  lemma MarkRuns(metadata: map<string, Json>)
    requires "annotations" in metadata ==> metadata["annotations"].Object?
    ensures Run(Object(metadata), MarkOps(metadata)) == Ok(Object(MarkedMetadata(metadata)))
  {
    var word := JsonPatch.Word(INJECTED);
    var mark := [Add([STATUS], word)];
    var made := if "annotations" in metadata then metadata else metadata["annotations" := Object(map[])];
    var create := if "annotations" in metadata then [] else [Add(["annotations"], Object(map[]))];
    var inner := made["annotations"].fields;
    assert ["annotations"] + [STATUS] == ["annotations", STATUS];
    assert MarkOps(metadata) == create + Under("annotations", mark);
    RunJoin(Object(metadata), create, Under("annotations", mark));
    if "annotations" in metadata {
      RunNothing(Object(metadata));
    } else {
      RunOne(Object(metadata), create[0], Object(made));
    }
    RunOne(Object(inner), mark[0], Object(inner[STATUS := word]));
    RunUnderField(made, "annotations", mark);
    assert made["annotations" := Object(inner[STATUS := word])] == MarkedMetadata(metadata);
  }

  /** What the mounts make of the containers. */
  function MountedContainers(request: Request, containers: seq<Json>): (out: seq<Json>)
    requires forall k :: 0 <= k < |containers| ==> containers[k].Object?
    ensures |out| == |containers|
    ensures forall k :: 0 <= k < |containers| ==>
              out[k] == Object(if Selected(request, containers[k]) then Mounted(request, containers[k].fields)
                               else containers[k].fields)
  {
    if containers == [] then []
    else
      [Object(if Selected(request, containers[0]) then Mounted(request, containers[0].fields) else containers[0].fields)]
      + MountedContainers(request, containers[1..])
  }

  lemma MountsRun(request: Request, containers: seq<Json>)
    requires ContainersOk(request, containers)
    ensures Run(Array(containers), Each(MountLists(request, containers))) ==
              Ok(Array(MountedContainers(request, containers)))
  {
    hide Run, MountOps, Mounted, Selected, Each;
    var lists, out := MountLists(request, containers), MountedContainers(request, containers);
    forall k | 0 <= k < |lists| ensures Run(containers[k], lists[k]) == Ok(out[k]) {
      MountRuns(request, containers[k]);
    }
    RunEach(containers, lists, out);
    assert out[..|lists|] + containers[|lists|..] == out;
  }

  /** Mounting and wrapping do not disturb each other. */
  lemma MountThenWrap(request: Request, container: Json, now: map<string, Json>)
    requires ContainerOk(request, container)
    requires now == if Selected(request, container) then Mounted(request, container.fields) else container.fields
    ensures Run(Object(now), WrapOps(request, container)) == Ok(InjectedContainer(request, container))
  {
    hide Run, WrapOps, Selected, Wrapped, Mount, Prefix, Probe;
    WrapRuns(request, container, now);
    if Wrapped(request, container) && Selected(request, container) {
      MountCommutes(request, container.fields);
    }
  }

  lemma MountCommutes(request: Request, fields: map<string, Json>)
    ensures Rewrapped(request, Mounted(request, fields)) == Mounted(request, Rewrapped(request, fields))
  {
    hide Mount, Prefix, Probe;
  }

  lemma WrapsRun(request: Request, containers: seq<Json>)
    requires ContainersOk(request, containers)
    ensures Run(Array(MountedContainers(request, containers)), Each(WrapLists(request, containers))) ==
              Ok(Array(InjectedContainers(request, containers)))
  {
    hide Run, WrapOps, Mounted, Selected, Each, InjectedContainer;
    var lists, now := WrapLists(request, containers), MountedContainers(request, containers);
    var out := InjectedContainers(request, containers);
    forall k | 0 <= k < |lists| ensures Run(now[k], lists[k]) == Ok(out[k]) {
      MountThenWrap(request, containers[k], now[k].fields);
    }
    RunEach(now, lists, out);
    assert out[..|lists|] + now[|lists|..] == out;
  }

  /** Operations on an array that is there. */
  lemma RunOnArray(fields: map<string, Json>, key: string, items: seq<Json>, ops: seq<Op>, out: seq<Json>)
    requires key in fields && fields[key] == Array(items)
    requires Run(Array(items), ops) == Ok(Array(out))
    ensures Run(Object(fields), Under(key, ops)) == Ok(Object(fields[key := Array(out)]))
  {
    hide Run, Under;
    RunUnderField(fields, key, ops);
  }

  lemma AppendsInto(fields: map<string, Json>, key: string, values: seq<Json>)
    requires ArrayIf(fields, key)
    ensures Run(Object(fields), Into(fields, key, Appends(values))) ==
              Ok(Object(fields[key := Array(ArrayAt(fields, key) + values)]))
  {
    hide Run, Into, Appends;
    RunAppends(ArrayAt(fields, key), values);
    RunInto(fields, key, Appends(values), ArrayAt(fields, key) + values);
  }

  lemma InitsRun(request: Request, webhook: Webhook, items: seq<Json>)
    ensures Run(Array(items), InitOps(request, webhook)) ==
              Ok(Array((if request.initFirst then [Agent(request, webhook, false)] else []) + items +
                       (if request.initFirst then [] else [Agent(request, webhook, false)]) +
                       ExtraAgents(request, webhook, request.extra, false)))
  {
    hide Agent, ExtraAgents, Run;
    var agent, extras := Agent(request, webhook, false), ExtraAgents(request, webhook, request.extra, false);
    var first := [Add([if request.initFirst then "0" else "-"], agent)];
    Placed(items, agent, request.initFirst);
    var placed := if request.initFirst then [agent] + items else items + [agent];
    RunJoin(Array(items), first, Appends(extras));
    RunAppends(placed, extras);
    PlacedThen(items, agent, extras);
  }

  lemma PlacedThen(items: seq<Json>, agent: Json, extras: seq<Json>)
    ensures [agent] + items + [] + extras == [agent] + items + extras
    ensures [] + items + [agent] + extras == items + [agent] + extras
  {
  }

  lemma Placed(items: seq<Json>, agent: Json, first: bool)
    ensures Run(Array(items), [Add([if first then "0" else "-"], agent)]) ==
              Ok(Array(if first then [agent] + items else items + [agent]))
  {
    ZeroIndex();
    hide Index, Run;
    var op := Add([if first then "0" else "-"], agent);
    if first {
      assert items[..0] + [agent] + items[0..] == [agent] + items;
    }
    RunOne(Array(items), op, Array(if first then [agent] + items else items + [agent]));
  }

  lemma ZeroIndex()
    ensures Index("0") == Some(0)
  {
    assert Decimal(0) == "0";
    IndexReadsBack(0);
  }

  lemma ContainersPresent(request: Request, spec: map<string, Json>)
    requires SpecOk(request, spec)
    ensures spec["containers"] == Array(Containers(spec)) && ContainersOk(request, Containers(spec))
    ensures forall k :: 0 <= k < |Containers(spec)| ==> Containers(spec)[k].Object?
  {
  }

  /** Volumes, then mounts: the spec so far. */
  function Volumed(request: Request, spec: map<string, Json>): map<string, Json> {
    spec["volumes" := Array(ArrayAt(spec, "volumes") + Volumes(request))]
  }

  function WithContainers(spec: map<string, Json>, containers: seq<Json>): map<string, Json> {
    spec["containers" := Array(containers)]
  }

  function Pulled(webhook: Webhook, spec: map<string, Json>): map<string, Json> {
    if webhook.pullSecret.None? then spec
    else spec["imagePullSecrets" := Array(ArrayAt(spec, "imagePullSecrets") + PullSecrets(webhook))]
  }

  lemma VolumesRun(request: Request, spec: map<string, Json>)
    requires SpecOk(request, spec)
    ensures Run(Object(spec), Into(spec, "volumes", Appends(Volumes(request)))) == Ok(Object(Volumed(request, spec)))
  {
    hide Run, Volumes, Appends, Into;
    AppendsInto(spec, "volumes", Volumes(request));
  }

  lemma ContainersRun(request: Request, spec: map<string, Json>, now: map<string, Json>)
    requires SpecOk(request, spec) && "containers" in now && now["containers"] == Array(Containers(spec))
    ensures forall k :: 0 <= k < |Containers(spec)| ==> Containers(spec)[k].Object?
    ensures Run(Object(now), Under("containers", Each(MountLists(request, Containers(spec))))) ==
              Ok(Object(WithContainers(now, MountedContainers(request, Containers(spec)))))
  {
    hide Run, Each, MountLists, Under, ContainersOk;
    ContainersPresent(request, spec);
    MountsRun(request, Containers(spec));
    RunOnArray(now, "containers", Containers(spec), Each(MountLists(request, Containers(spec))),
               MountedContainers(request, Containers(spec)));
  }

  lemma WrapContainersRun(request: Request, spec: map<string, Json>, now: map<string, Json>)
    requires SpecOk(request, spec)
    requires forall k :: 0 <= k < |Containers(spec)| ==> Containers(spec)[k].Object?
    requires "containers" in now && now["containers"] == Array(MountedContainers(request, Containers(spec)))
    ensures Run(Object(now), Under("containers", Each(WrapLists(request, Containers(spec))))) ==
              Ok(Object(WithContainers(now, InjectedContainers(request, Containers(spec)))))
  {
    hide Run, Each, WrapLists, Under, ContainersOk, MountedContainers, InjectedContainers;
    ContainersPresent(request, spec);
    WrapsRun(request, Containers(spec));
    RunOnArray(now, "containers", MountedContainers(request, Containers(spec)), Each(WrapLists(request, Containers(spec))),
               InjectedContainers(request, Containers(spec)));
  }

  lemma PullRuns(request: Request, webhook: Webhook, spec: map<string, Json>, now: map<string, Json>)
    requires SpecOk(request, spec)
    requires "imagePullSecrets" in now <==> "imagePullSecrets" in spec
    requires "imagePullSecrets" in now ==> now["imagePullSecrets"] == spec["imagePullSecrets"]
    ensures Run(Object(now), PullOps(webhook, spec)) == Ok(Object(Pulled(webhook, now)))
  {
    hide Run, PullSecrets, Appends, ContainersOk;
    if webhook.pullSecret.Some? {
      AppendsInto(now, "imagePullSecrets", PullSecrets(webhook));
      assert Into(now, "imagePullSecrets", Appends(PullSecrets(webhook))) ==
             Into(spec, "imagePullSecrets", Appends(PullSecrets(webhook)));
    } else {
      RunNothing(Object(now));
    }
  }

  function InitStageInits(request: Request, webhook: Webhook, items: seq<Json>): seq<Json> {
    InitsBefore(request, webhook) + items +
    (if request.initFirst then [] else [Agent(request, webhook, false)]) +
    ExtraAgents(request, webhook, request.extra, false)
  }

  /** The agents that run once. */
  function InitStage(request: Request, webhook: Webhook, now: map<string, Json>): map<string, Json> {
    if HasInit(request.mode)
    then now["initContainers" := Array(InitStageInits(request, webhook, ArrayAt(now, "initContainers")))]
    else now
  }

  lemma InitStageRuns(request: Request, webhook: Webhook, spec: map<string, Json>, now: map<string, Json>)
    requires ArrayIf(spec, "initContainers")
    requires "initContainers" in now <==> "initContainers" in spec
    requires "initContainers" in now ==> now["initContainers"] == spec["initContainers"]
    ensures Run(Object(now), if HasInit(request.mode) then Into(spec, "initContainers", InitOps(request, webhook)) else []) ==
              Ok(Object(InitStage(request, webhook, now)))
  {
    hide Run, InitOps, Agent, ExtraAgents, Under;
    if HasInit(request.mode) {
      var items := ArrayAt(now, "initContainers");
      InitsRun(request, webhook, items);
      RunInto(now, "initContainers", InitOps(request, webhook), InitStageInits(request, webhook, items));
      assert Into(now, "initContainers", InitOps(request, webhook)) == Into(spec, "initContainers", InitOps(request, webhook));
    } else {
      RunNothing(Object(now));
    }
  }

  /** The agents that stay. */
  function AgentStage(request: Request, webhook: Webhook, now: map<string, Json>): map<string, Json> {
    if !HasAgent(request.mode) then now
    else if !request.nativeSidecar then
      now["containers" := Array(ArrayAt(now, "containers") + Agents(request, webhook, true))]
    else
      now["initContainers" := Array(ArrayAt(now, "initContainers") + Always(Agents(request, webhook, true)))]
  }

  lemma AgentStageRuns(request: Request, webhook: Webhook, spec: map<string, Json>, now: map<string, Json>)
    requires ArrayIf(now, "initContainers") && "containers" in now && now["containers"].Array?
    requires request.mode.Both? ==> "initContainers" in now
    requires request.mode.Sidecar? ==> ("initContainers" in now <==> "initContainers" in spec)
    ensures Run(Object(now), StayOps(request, webhook, spec)) == Ok(Object(AgentStage(request, webhook, now)))
  {
    hide Run, Agents, Always, Appends, Under;
    if !HasAgent(request.mode) {
      RunNothing(Object(now));
    } else if !request.nativeSidecar {
      AppendsInto(now, "containers", Agents(request, webhook, true));
      assert Into(now, "containers", Appends(Agents(request, webhook, true))) ==
             Under("containers", Appends(Agents(request, webhook, true)));
    } else {
      var natives := Always(Agents(request, webhook, true));
      AppendsInto(now, "initContainers", natives);
      if request.mode.Both? {
        assert Into(now, "initContainers", Appends(natives)) == Under("initContainers", Appends(natives));
      } else {
        assert Into(now, "initContainers", Appends(natives)) == Into(spec, "initContainers", Appends(natives));
      }
    }
  }

  lemma AgentsRun(request: Request, webhook: Webhook, spec: map<string, Json>, now: map<string, Json>)
    requires ArrayIf(spec, "initContainers")
    requires "initContainers" in now <==> "initContainers" in spec
    requires "initContainers" in now ==> now["initContainers"] == spec["initContainers"]
    requires "containers" in now && now["containers"].Array?
    ensures Run(Object(now), AgentOps(request, webhook, spec)) ==
              Ok(Object(AgentStage(request, webhook, InitStage(request, webhook, now))))
  {
    hide Run, StayOps, InitOps, Agent, ExtraAgents, AgentStage, Into;
    var inits := if HasInit(request.mode) then Into(spec, "initContainers", InitOps(request, webhook)) else [];
    InitStageRuns(request, webhook, spec, now);
    RunJoin(Object(now), inits, StayOps(request, webhook, spec));
    AgentStageRuns(request, webhook, spec, InitStage(request, webhook, now));
  }

  /** The stages one after another, from the spec as it came. */
  function Staged(request: Request, webhook: Webhook, spec: map<string, Json>): map<string, Json>
    requires SpecOk(request, spec)
  {
    ContainersPresent(request, spec);
    var injected := WithContainers(Pulled(webhook, Volumed(request, spec)), InjectedContainers(request, Containers(spec)));
    AgentStage(request, webhook, InitStage(request, webhook, injected))
  }

  /** The spec after its volumes, its mounts, its pull secret and its wrapper. */
  function AfterMounts(request: Request, spec: map<string, Json>): map<string, Json>
    requires forall k :: 0 <= k < |Containers(spec)| ==> Containers(spec)[k].Object?
  {
    WithContainers(Volumed(request, spec), MountedContainers(request, Containers(spec)))
  }

  function AfterWraps(request: Request, webhook: Webhook, spec: map<string, Json>): map<string, Json>
    requires forall k :: 0 <= k < |Containers(spec)| ==> Containers(spec)[k].Object?
  {
    WithContainers(Pulled(webhook, AfterMounts(request, spec)), InjectedContainers(request, Containers(spec)))
  }

  /** What each stage finds in the fields it works on. */
  lemma StageFields(request: Request, webhook: Webhook, spec: map<string, Json>)
    requires SpecOk(request, spec)
    requires forall k :: 0 <= k < |Containers(spec)| ==> Containers(spec)[k].Object?
    ensures var s1, s2 := Volumed(request, spec), AfterMounts(request, spec);
            var s3, s4 := Pulled(webhook, s2), AfterWraps(request, webhook, spec);
            && "containers" in s1 && s1["containers"] == Array(Containers(spec))
            && ("imagePullSecrets" in s2 <==> "imagePullSecrets" in spec)
            && ("imagePullSecrets" in s2 ==> s2["imagePullSecrets"] == spec["imagePullSecrets"])
            && "containers" in s3 && s3["containers"] == Array(MountedContainers(request, Containers(spec)))
            && ("initContainers" in s4 <==> "initContainers" in spec)
            && ("initContainers" in s4 ==> s4["initContainers"] == spec["initContainers"])
            && "containers" in s4 && s4["containers"].Array?
            && s4 == WithContainers(Pulled(webhook, s1), InjectedContainers(request, Containers(spec)))
  {
    hide Volumes, MountedContainers, InjectedContainers, ContainersOk, PullSecrets;
    ContainersPresent(request, spec);
  }

  lemma RunFour(json: Json, a: seq<Op>, b: seq<Op>, c: seq<Op>, d: seq<Op>, j1: Json, j2: Json, j3: Json, j4: Json)
    requires Run(json, a) == Ok(j1) && Run(j1, b) == Ok(j2) && Run(j2, c) == Ok(j3) && Run(j3, d) == Ok(j4)
    ensures Run(json, a + b + c + d) == Ok(j4)
  {
    hide Run;
    RunJoin(json, a + b + c, d);
    RunJoin(json, a + b, c);
    RunJoin(json, a, b);
  }

  lemma SpecRuns(request: Request, webhook: Webhook, spec: map<string, Json>)
    requires SpecOk(request, spec)
    ensures Run(Object(spec), SpecOps(request, webhook, spec)) == Ok(Object(Staged(request, webhook, spec)))
  {
    hide Run, AgentOps, PullOps, MountLists, WrapLists, Each, Into, Under, Appends, AgentStage, InitStage, Volumes,
         MountedContainers, InjectedContainers, ContainersOk, PullSecrets, Volumed, Pulled,
         WithContainers;
    ContainersPresent(request, spec);
    StageFields(request, webhook, spec);
    var volumes := Into(spec, "volumes", Appends(Volumes(request)));
    var mounts := Under("containers", Each(MountLists(request, Containers(spec))));
    var pulls := PullOps(webhook, spec);
    var wraps := Under("containers", Each(WrapLists(request, Containers(spec))));
    VolumesRun(request, spec);
    ContainersRun(request, spec, Volumed(request, spec));
    PullRuns(request, webhook, spec, AfterMounts(request, spec));
    WrapContainersRun(request, spec, Pulled(webhook, AfterMounts(request, spec)));
    RunFour(Object(spec), volumes, mounts, pulls, wraps, Object(Volumed(request, spec)), Object(AfterMounts(request, spec)),
            Object(Pulled(webhook, AfterMounts(request, spec))), Object(AfterWraps(request, webhook, spec)));
    RunJoin(Object(spec), volumes + mounts + pulls + wraps, AgentOps(request, webhook, spec));
    AgentsRun(request, webhook, spec, AfterWraps(request, webhook, spec));
  }

  lemma StagedIsInjected(request: Request, webhook: Webhook, spec: map<string, Json>)
    requires SpecOk(request, spec)
    ensures Staged(request, webhook, spec) == InjectedSpec(request, webhook, spec)
  {
    hide Volumes, InjectedContainers, ContainersOk, PullSecrets, Agent, ExtraAgents, Agents, Always;
    ContainersPresent(request, spec);
    var items := ArrayAt(spec, "initContainers");
    StagedInits(request, webhook, items);
    var injected := InjectedContainers(request, Containers(spec));
    assert injected + [] == injected;
    var w := WithContainers(Pulled(webhook, Volumed(request, spec)), injected);
    assert ArrayAt(w, "initContainers") == items;
    if HasInit(request.mode) && HasAgent(request.mode) && request.nativeSidecar {
      var once := InitStageInits(request, webhook, items);
      assert w["initContainers" := Array(once)]["initContainers" := Array(once + Always(Agents(request, webhook, true)))] ==
             w["initContainers" := Array(once + Always(Agents(request, webhook, true)))];
    }
  }

  lemma StagedInits(request: Request, webhook: Webhook, items: seq<Json>)
    ensures HasInit(request.mode) && !(HasAgent(request.mode) && request.nativeSidecar) ==>
              InitStageInits(request, webhook, items) ==
              InitsBefore(request, webhook) + items + InitsAfter(request, webhook)
    ensures HasInit(request.mode) && HasAgent(request.mode) && request.nativeSidecar ==>
              InitStageInits(request, webhook, items) + Always(Agents(request, webhook, true)) ==
              InitsBefore(request, webhook) + items + InitsAfter(request, webhook)
    ensures !HasInit(request.mode) && HasAgent(request.mode) && request.nativeSidecar ==>
              items + Always(Agents(request, webhook, true)) ==
              InitsBefore(request, webhook) + items + InitsAfter(request, webhook)
  {
    hide Agent, ExtraAgents, Agents, Always;
  }

  /** Interpreted in order, the patch never fails, and what it makes is the injected pod. */
  lemma PatchInjects(request: Request, webhook: Webhook, pod: Json)
    requires PodOk(request, pod)
    ensures Run(pod, Patch(request, webhook, pod)) == Ok(Injected(request, webhook, pod))
  {
    hide Run, MarkOps, SpecOps, InjectedSpec, MarkedMetadata, SpecOk, Under, Staged;
    var metadata, spec := pod.fields["metadata"].fields, pod.fields["spec"].fields;
    var marks, specs := MarkOps(metadata), SpecOps(request, webhook, spec);
    RunJoin(pod, Under("metadata", marks), Under("spec", specs));
    MarkRuns(metadata);
    RunUnderField(pod.fields, "metadata", marks);
    var next := pod.fields["metadata" := Object(MarkedMetadata(metadata))];
    SpecRuns(request, webhook, spec);
    StagedIsInjected(request, webhook, spec);
    RunUnderField(next, "spec", specs);
  }

  // ----- what the patch leaves alone ------------------------------------------------

  /** Beside its mark, its volumes, its pull secret, the agents and the containers it mounts
      into or wraps, the pod is as it was, the containers in their own order. */
  lemma NothingElseChanges(request: Request, webhook: Webhook, pod: Json)
    requires PodOk(request, pod)
    ensures var out := Injected(request, webhook, pod);
            && (forall key :: key != "metadata" && key != "spec" ==> Field(out, key) == Field(pod, key))
            && "metadata" in out.fields && out.fields["metadata"].Object?
    ensures var before, after := pod.fields["metadata"], Injected(request, webhook, pod).fields["metadata"];
            && (forall key :: key != "annotations" ==> Field(after, key) == Field(before, key))
            && (forall key :: key != STATUS ==>
                  Field(Object(FieldsAt(after, "annotations")), key) == Field(Object(FieldsAt(before, "annotations")), key))
            && Field(Object(FieldsAt(after, "annotations")), STATUS) == Some(JsonPatch.Word(INJECTED))
  {
    hide InjectedSpec, SpecOk;
  }

  lemma SpecElsewhere(request: Request, webhook: Webhook, spec: map<string, Json>)
    requires SpecOk(request, spec)
    ensures var out := InjectedSpec(request, webhook, spec);
            && (forall key :: key != "volumes" && key != "containers" && key != "initContainers" && key != "imagePullSecrets"
                  ==> Field(Object(out), key) == Field(Object(spec), key))
            && ArrayAt(out, "volumes") == ArrayAt(spec, "volumes") + Volumes(request)
            && |Containers(out)| == |Containers(spec)| + |Sidecars(request, webhook)|
            && Containers(out)[|Containers(spec)|..] == Sidecars(request, webhook)
            && (!TouchesInits(request) ==> Field(Object(out), "initContainers") == Field(Object(spec), "initContainers"))
            && (webhook.pullSecret.None? ==> Field(Object(out), "imagePullSecrets") == Field(Object(spec), "imagePullSecrets"))
  {
    hide Volumes, ContainersOk, PullSecrets, Agent, ExtraAgents, Agents, Always, InitsBefore, InitsAfter;
  }

  /** A container of the pod keeps its place and every field but four; a selected one has one
      mount more, and the wrapped one runs the wrapper, then its command, then its arguments. */
  lemma ContainerKept(request: Request, webhook: Webhook, spec: map<string, Json>, k: nat)
    requires SpecOk(request, spec) && k < |Containers(spec)|
    ensures var out := InjectedSpec(request, webhook, spec);
            k < |Containers(out)| && Containers(spec)[k].Object? && Containers(out)[k].Object?
    ensures var before, after := Containers(spec)[k], Containers(InjectedSpec(request, webhook, spec))[k];
            && (forall key :: key != "volumeMounts" && key != "command" && key != "args" && key != "livenessProbe"
                  ==> Field(after, key) == Field(before, key))
            && NameOf(after) == NameOf(before)
            && ArrayAt(after.fields, "volumeMounts") ==
                 ArrayAt(before.fields, "volumeMounts") + (if Selected(request, before) then [Mount(request)] else [])
            && (if Wrapped(request, before) then
                  && ArrayAt(after.fields, "command") ==
                       Prefix(request) + ArrayAt(before.fields, "command") + ArrayAt(before.fields, "args")
                  && "args" !in after.fields
                  && (request.envRestart ==> Field(after, "livenessProbe") == Some(Probe(request)))
                else
                  && Field(after, "command") == Field(before, "command")
                  && Field(after, "args") == Field(before, "args")
                  && Field(after, "livenessProbe") == Field(before, "livenessProbe"))
  {
    hide Volumes, ContainersOk, PullSecrets, Sidecars, InitsBefore, InitsAfter, Prefix, Probe, Mount, InjectedContainer;
    ContainersPresent(request, spec);
    assert Containers(InjectedSpec(request, webhook, spec))[k] == InjectedContainer(request, Containers(spec)[k]);
    hide InjectedSpec;
    InjectedKept(request, Containers(spec)[k]);
  }

  lemma InjectedKept(request: Request, before: Json)
    requires before.Object?
    ensures var after := InjectedContainer(request, before);
            && after.Object?
            && (forall key :: key != "volumeMounts" && key != "command" && key != "args" && key != "livenessProbe"
                  ==> Field(after, key) == Field(before, key))
            && NameOf(after) == NameOf(before)
            && ArrayAt(after.fields, "volumeMounts") ==
                 ArrayAt(before.fields, "volumeMounts") + (if Selected(request, before) then [Mount(request)] else [])
            && (if Wrapped(request, before) then
                  && ArrayAt(after.fields, "command") ==
                       Prefix(request) + ArrayAt(before.fields, "command") + ArrayAt(before.fields, "args")
                  && "args" !in after.fields
                  && (request.envRestart ==> Field(after, "livenessProbe") == Some(Probe(request)))
                else
                  && Field(after, "command") == Field(before, "command")
                  && Field(after, "args") == Field(before, "args")
                  && Field(after, "livenessProbe") == Field(before, "livenessProbe"))
  {
    hide Prefix, Probe, Mount, Selected, Wrapped;
  }

  // ----- every mount names a volume -------------------------------------------------

  predicate Offers(volumes: seq<Json>, name: string) {
    exists k :: 0 <= k < |volumes| && NameOf(volumes[k]) == Some(name)
  }

  predicate Backed(mounts: seq<Json>, volumes: seq<Json>) {
    forall k :: 0 <= k < |mounts| ==> NameOf(mounts[k]).Some? && Offers(volumes, NameOf(mounts[k]).value)
  }

  lemma OffersJoin(a: seq<Json>, b: seq<Json>, name: string)
    requires Offers(a, name) || Offers(b, name)
    ensures Offers(a + b, name)
  {
    hide NameOf;
    if Offers(a, name) {
      var k :| 0 <= k < |a| && NameOf(a[k]) == Some(name);
      assert (a + b)[k] == a[k];
    } else {
      var k :| 0 <= k < |b| && NameOf(b[k]) == Some(name);
      assert (a + b)[|a| + k] == b[k];
    }
  }

  lemma BackedJoin(a: seq<Json>, b: seq<Json>, volumes: seq<Json>)
    requires Backed(a, volumes) && Backed(b, volumes)
    ensures Backed(a + b, volumes)
  {
    hide NameOf, Offers;
  }

  lemma {:induction false} OffersPart(part: nat -> seq<Json>, ranks: nat, rank: nat, name: string)
    requires rank < ranks && Offers(part(rank), name)
    ensures Offers(Concat(part, ranks), name)
  {
    hide Offers;
    if rank < ranks - 1 {
      OffersPart(part, ranks - 1, rank, name);
    }
    OffersJoin(Concat(part, ranks - 1), part(ranks - 1), name);
  }

  lemma {:induction false} BackedParts(part: nat -> seq<Json>, ranks: nat, volumes: seq<Json>)
    requires forall rank: nat :: Backed(part(rank), volumes)
    ensures Backed(Concat(part, ranks), volumes)
  {
    hide Backed;
    if ranks > 0 {
      BackedParts(part, ranks - 1, volumes);
      BackedJoin(Concat(part, ranks - 1), part(ranks - 1), volumes);
    } else {
      NoMounts(volumes);
    }
  }

  lemma NoMounts(volumes: seq<Json>)
    ensures Backed([], volumes)
  {
  }

  lemma NamedOffers(name: string, fields: map<string, Json>)
    ensures NameOf(Named(name, fields)) == Some(name) && Offers([Named(name, fields)], name)
  {
    assert NameOf([Named(name, fields)][0]) == Some(name);
  }

  /** A volume is made exactly for the material there is. */
  lemma MaterialOffers(name: string, ref: Option<ObjectRef>, secret: Option<string>)
    ensures ref.Some? ==> Offers(MapVolume(name, ref), name) && Offers(SshVolume(name, ref), name)
    ensures secret.Some? ==> Offers(OpenSecretVolume(name, secret), name)
  {
    hide NameOf, Offers, Named;
    match ref {
      case Some(target) =>
        NamedOffers(name, map["configMap" := Object(map["name" := JsonPatch.Word(target.name)])]);
        NamedOffers(name, map["secret" := Object(map["secretName" := JsonPatch.Word(target.name),
                                                      "defaultMode" := JsonPatch.Number(0x100)])]);
      case None =>
    }
    match secret {
      case Some(target) =>
        NamedOffers(name, map["secret" := Object(map["secretName" := JsonPatch.Word(target),
                                                      "defaultMode" := JsonPatch.Number(0x124)])]);
      case None =>
    }
  }

  lemma MountBacked<T>(value: Option<T>, name: string, path: string, volumes: seq<Json>)
    requires value.Some? ==> Offers(volumes, name)
    ensures Backed(MountWhen(value, name, path), volumes)
  {
    hide NameOf, Offers, Named;
    NamedOffers(name, map["mountPath" := JsonPatch.Word(path), "readOnly" := JsonPatch.Bool(true)]);
  }

  lemma MainBacked(request: Request)
    ensures Backed([Mount(request)], Volumes(request))
  {
    hide NameOf, Offers, Named, Concat;
    var part := (rank: nat) => VolumePart(request, rank);
    var limit := map["sizeLimit" := JsonPatch.Word("16Mi")];
    NamedOffers("dynamic-config",
                map["emptyDir" := Object(if request.volumeMemory then limit["medium" := JsonPatch.Word("Memory")] else limit)]);
    assert part(0) == [RenderedVolume(request.volumeMemory)];
    OffersPart(part, 9, 0, "dynamic-config");
    NamedOffers("dynamic-config", map["mountPath" := JsonPatch.Word(request.directory)]);
  }

  lemma PartBacked(request: Request, rank: nat)
    ensures Backed(MountPart(request, rank), Volumes(request))
  {
    hide NameOf, Offers, Named, Concat, Backed, MountWhen, MapVolume, SshVolume, OpenSecretVolume, Mount, RenderedVolume;
    var part := (r: nat) => VolumePart(request, r);
    match rank {
      case 0 => MainBacked(request);
      case 1 => OneBacked(request, part, 1, request.ca, request.ca, None, "dynamic-config-ca", "/etc/dynamic-config/ca");
      case 2 => OneBacked(request, part, 2, request.ssh, request.ssh, None, "dynamic-config-ssh", "/etc/dynamic-config/ssh");
      case 3 => OneBacked(request, part, 4, request.canary, request.canary, None, "dynamic-config-canary", CANARY_MOUNT);
      case 4 =>
        OneBacked(request, part, 3, request.extraSecret, None, request.extraSecret, "dynamic-config-extra",
                  "/etc/dynamic-config/extra");
      case 5 =>
        OneBacked(request, part, 5, request.tls, None, request.tls, "dynamic-config-client-tls", "/etc/dynamic-config/tls");
      case 6 =>
        OneBacked(request, part, 7, request.template, request.template, None, "dynamic-config-template",
                  "/etc/dynamic-config/template");
      case 7 =>
        OneBacked(request, part, 8, request.schema, request.schema, None, "dynamic-config-schema",
                  "/etc/dynamic-config/schema");
      case _ => NoMounts(Volumes(request));
    }
  }

  lemma OneBacked<T>(request: Request, part: nat -> seq<Json>, rank: nat, value: Option<T>, ref: Option<ObjectRef>,
                     secret: Option<string>, name: string, path: string)
    requires rank < 9 && Volumes(request) == Concat(part, 9)
    requires value.Some? ==>
               (ref.Some? && (part(rank) == MapVolume(name, ref) || part(rank) == SshVolume(name, ref))) ||
               (secret.Some? && part(rank) == OpenSecretVolume(name, secret))
    ensures Backed(MountWhen(value, name, path), Volumes(request))
  {
    hide NameOf, Offers, Named, Concat, Backed, MountWhen, MapVolume, SshVolume, OpenSecretVolume, Volumes;
    MaterialOffers(name, ref, secret);
    if value.Some? {
      OffersPart(part, 9, rank, name);
    }
    MountBacked(value, name, path, Volumes(request));
  }

  lemma {:induction false} ExtraOffered(extra: seq<Extra>, k: nat, name: string)
    requires k < |extra| && Offers(ExtraVolumes(extra[k]), name)
    ensures Offers(AllExtraVolumes(extra), name)
    decreases |extra|
  {
    hide Offers, ExtraVolumes;
    var before, last := extra[..|extra| - 1], extra[|extra| - 1];
    if k < |extra| - 1 {
      ExtraOffered(before, k, name);
    }
    OffersJoin(AllExtraVolumes(before), ExtraVolumes(last), name);
  }

  lemma ExtraVolumesOffer(extra: Extra)
    ensures extra.ca.Some? ==> Offers(ExtraVolumes(extra), "dynamic-config-ca-" + extra.name)
    ensures extra.ssh.Some? ==> Offers(ExtraVolumes(extra), "dynamic-config-ssh-" + extra.name)
    ensures extra.tls.Some? ==> Offers(ExtraVolumes(extra), "dynamic-config-client-tls-" + extra.name)
    ensures extra.template.Some? ==> Offers(ExtraVolumes(extra), "dynamic-config-template-" + extra.name)
  {
    hide Offers, MapVolume, SshVolume, OpenSecretVolume;
    var caName, sshName := "dynamic-config-ca-" + extra.name, "dynamic-config-ssh-" + extra.name;
    var tlsName, templateName := "dynamic-config-client-tls-" + extra.name, "dynamic-config-template-" + extra.name;
    var a, b := MapVolume(caName, extra.ca), SshVolume(sshName, extra.ssh);
    var c, d := OpenSecretVolume(tlsName, extra.tls), MapVolume(templateName, extra.template);
    MaterialOffers(caName, extra.ca, None);
    MaterialOffers(sshName, extra.ssh, None);
    MaterialOffers(tlsName, None, extra.tls);
    MaterialOffers(templateName, extra.template, None);
    if extra.ca.Some? {
      OffersJoin(a, b, caName);
      OffersJoin(a + b, c, caName);
      OffersJoin(a + b + c, d, caName);
    }
    if extra.ssh.Some? {
      OffersJoin(a, b, sshName);
      OffersJoin(a + b, c, sshName);
      OffersJoin(a + b + c, d, sshName);
    }
    if extra.tls.Some? {
      OffersJoin(a + b, c, tlsName);
      OffersJoin(a + b + c, d, tlsName);
    }
    if extra.template.Some? {
      OffersJoin(a + b + c, d, templateName);
    }
  }

  lemma ExtraReaches(request: Request, k: nat, name: string)
    requires k < |request.extra| && Offers(ExtraVolumes(request.extra[k]), name)
    ensures Offers(Volumes(request), name)
  {
    hide Offers, ExtraVolumes, Concat;
    ExtraOffered(request.extra, k, name);
    var part := (rank: nat) => VolumePart(request, rank);
    assert part(6) == AllExtraVolumes(request.extra);
    OffersPart(part, 9, 6, name);
  }

  /** Every mount the patch adds names a volume the patch adds: in the pod's containers, in
      the default render's agents and in each named render's. */
  lemma MountsNameVolumes(request: Request)
    ensures Backed([Mount(request)], Volumes(request))
    ensures Backed(AgentMounts(request), Volumes(request))
    ensures forall k :: 0 <= k < |request.extra| ==> Backed(ExtraMounts(request, request.extra[k]), Volumes(request))
  {
    hide Backed, Volumes, MountPart, Concat, ExtraMounts;
    MainBacked(request);
    forall rank: nat ensures Backed(MountPart(request, rank), Volumes(request)) {
      PartBacked(request, rank);
    }
    BackedParts((rank: nat) => MountPart(request, rank), 8, Volumes(request));
    forall k | 0 <= k < |request.extra| ensures Backed(ExtraMounts(request, request.extra[k]), Volumes(request)) {
      ExtraBacked(request, k);
    }
  }

  lemma ExtraBacked(request: Request, k: nat)
    requires k < |request.extra|
    ensures Backed(ExtraMounts(request, request.extra[k]), Volumes(request))
  {
    hide Backed, Volumes, MountWhen, Offers, ExtraVolumes, Mount;
    var extra, volumes := request.extra[k], Volumes(request);
    var n := extra.name;
    MainBacked(request);
    ExtraVolumesOffer(extra);
    ExtraMount(request, k, extra.ca, "dynamic-config-ca-" + n, "/etc/dynamic-config/ca-" + n);
    ExtraMount(request, k, extra.ssh, "dynamic-config-ssh-" + n, "/etc/dynamic-config/ssh-" + n);
    ExtraMount(request, k, extra.tls, "dynamic-config-client-tls-" + n, "/etc/dynamic-config/tls-" + n);
    ExtraMount(request, k, extra.template, "dynamic-config-template-" + n, "/etc/dynamic-config/template-" + n);
    var a := [Mount(request)];
    var b := MountWhen(extra.ca, "dynamic-config-ca-" + n, "/etc/dynamic-config/ca-" + n);
    var c := MountWhen(extra.ssh, "dynamic-config-ssh-" + n, "/etc/dynamic-config/ssh-" + n);
    var d := MountWhen(extra.tls, "dynamic-config-client-tls-" + n, "/etc/dynamic-config/tls-" + n);
    var e := MountWhen(extra.template, "dynamic-config-template-" + n, "/etc/dynamic-config/template-" + n);
    BackedJoin(a, b, volumes);
    BackedJoin(a + b, c, volumes);
    BackedJoin(a + b + c, d, volumes);
    BackedJoin(a + b + c + d, e, volumes);
  }

  lemma ExtraMount<T>(request: Request, k: nat, value: Option<T>, name: string, path: string)
    requires k < |request.extra| && (value.Some? ==> Offers(ExtraVolumes(request.extra[k]), name))
    ensures Backed(MountWhen(value, name, path), Volumes(request))
  {
    hide Offers, ExtraVolumes, Volumes, MountWhen, Backed;
    if value.Some? {
      ExtraReaches(request, k, name);
    }
    MountBacked(value, name, path, Volumes(request));
  }

  // ----- the patch, pushed step by step ---------------------------------------------

  /** Operations on one field of the spec, with their whole paths. */
  function InSpec(key: string, ops: seq<Op>): seq<Op> {
    Under("spec", Under(key, ops))
  }

  lemma InSpecJoin(key: string, a: seq<Op>, b: seq<Op>)
    ensures InSpec(key, a + b) == InSpec(key, a) + InSpec(key, b)
  {
    hide Under;
    UnderJoin(key, a, b);
    UnderJoin("spec", Under(key, a), Under(key, b));
  }

  lemma InSpecOne(key: string, path: Path, value: Json)
    ensures InSpec(key, [Add(path, value)]) == [Add(["spec", key] + path, value)]
  {
    UnderOne(key, path, value);
    UnderOne("spec", [key] + path, value);
    assert ["spec"] + ([key] + path) == ["spec", key] + path;
  }

  lemma UnderOne(token: string, path: Path, value: Json)
    ensures Under(token, [Add(path, value)]) == [Add([token] + path, value)]
  {
    assert [Add(path, value)][1..] == [];
  }

  lemma InSpecNone(key: string)
    ensures InSpec(key, []) == []
  {
  }

  /** One `add` to the end of a list of the spec for each value, after one that makes the
      list where there is none. */
  method PushInto(spec: map<string, Json>, key: string, values: seq<Json>) returns (ops: seq<Op>)
    ensures ops == Under("spec", Into(spec, key, Appends(values)))
  {
    hide Under, InSpec, Appends;
    ops := [];
    if key !in spec {
      ops := ops + [Add(["spec", key], Array([]))];
    }
    ghost var create := if key in spec then [] else [Add([key], Array([]))];
    CreateUnder(spec, key);
    assert ops == Under("spec", create);
    var pushed := PushAll(key, values);
    ops := ops + pushed;
    UnderJoin("spec", create, Under(key, Appends(values)));
    InSpecIs(key, Appends(values));
  }

  lemma InSpecIs(key: string, ops: seq<Op>)
    ensures InSpec(key, ops) == Under("spec", Under(key, ops))
  {
  }

  lemma CreateUnder(spec: map<string, Json>, key: string)
    ensures Under("spec", [Add([key], Array([]))]) == [Add(["spec", key], Array([]))]
    ensures Under("spec", []) == []
  {
    UnderOne("spec", [key], Array([]));
    assert ["spec"] + [key] == ["spec", key];
  }

  method PushAll(key: string, values: seq<Json>) returns (ops: seq<Op>)
    ensures ops == InSpec(key, Appends(values))
  {
    hide InSpec, Appends;
    InSpecNone(key);
    ops := [];
    for k := 0 to |values|
      invariant ops == InSpec(key, Appends(values[..k]))
    {
      AppendsLast(values[..k], values[k]);
      assert values[..k] + [values[k]] == values[..k + 1];
      InSpecJoin(key, Appends(values[..k]), [Add(["-"], values[k])]);
      InSpecOne(key, ["-"], values[k]);
      assert ["spec", key] + ["-"] == ["spec", key, "-"];
      ops := ops + [Add(["spec", key, "-"], values[k])];
    }
    assert values[..|values|] == values;
  }

  lemma AppendsLast(values: seq<Json>, last: Json)
    ensures Appends(values + [last]) == Appends(values) + [Add(["-"], last)]
  {
  }

  /** Operations on one container of the pod, with their whole paths. */
  function InItem(k: nat, ops: seq<Op>): seq<Op> {
    InSpec("containers", Under(Decimal(k), ops))
  }

  lemma InItemJoin(k: nat, a: seq<Op>, b: seq<Op>)
    ensures InItem(k, a + b) == InItem(k, a) + InItem(k, b)
  {
    hide InSpec, Under, Decimal;
    UnderJoin(Decimal(k), a, b);
    InSpecJoin("containers", Under(Decimal(k), a), Under(Decimal(k), b));
  }

  lemma InItemAdd(k: nat, path: Path, value: Json)
    ensures InItem(k, [Add(path, value)]) == [Add(["spec", "containers", Decimal(k)] + path, value)]
  {
    hide InSpec, Under, Decimal;
    UnderOne(Decimal(k), path, value);
    InSpecOne("containers", [Decimal(k)] + path, value);
    assert ["spec", "containers"] + ([Decimal(k)] + path) == ["spec", "containers", Decimal(k)] + path;
  }

  lemma InItemNone(k: nat)
    ensures InItem(k, []) == []
  {
    InSpecNone("containers");
    hide InSpec;
    assert Under(Decimal(k), []) == [];
  }

  lemma InItemOther(k: nat, key: string, value: Json)
    ensures InItem(k, [Replace([key], value)]) == [Replace(["spec", "containers", Decimal(k), key], value)]
    ensures InItem(k, [Remove([key])]) == [Remove(["spec", "containers", Decimal(k), key])]
  {
    hide Decimal;
    assert [Replace([key], value)][1..] == [] && [Remove([key])][1..] == [];
    assert ["spec"] + (["containers"] + ([Decimal(k)] + [key])) == ["spec", "containers", Decimal(k), key];
  }

  /** The operations of the first containers, and of one more. */
  lemma PushedItem(lists: seq<seq<Op>>, last: seq<Op>)
    ensures InSpec("containers", Each(lists + [last])) == InSpec("containers", Each(lists)) + InItem(|lists|, last)
  {
    hide InSpec, Under, Decimal;
    assert (lists + [last])[..|lists|] == lists;
    assert Each(lists + [last]) == Each(lists) + Under(Decimal(|lists|), last);
    hide Each;
    InSpecJoin("containers", Each(lists), Under(Decimal(|lists|), last));
  }

  method PushMounts(request: Request, containers: seq<Json>) returns (ops: seq<Op>)
    requires forall k :: 0 <= k < |containers| ==> containers[k].Object?
    ensures ops == InSpec("containers", Each(MountLists(request, containers)))
  {
    hide InSpec, InItem, Each, Decimal, MountOps;
    NoItems();
    ops := [];
    for k := 0 to |containers|
      invariant ops == InSpec("containers", Each(MountLists(request, containers)[..k]))
    {
      var pushed := PushMount(request, containers[k], k);
      var lists := MountLists(request, containers);
      assert lists[..k] + [lists[k]] == lists[..k + 1];
      PushedItem(lists[..k], lists[k]);
      ops := ops + pushed;
    }
    assert MountLists(request, containers)[..|containers|] == MountLists(request, containers);
  }

  lemma NoItems()
    ensures InSpec("containers", Each([])) == []
  {
    InSpecNone("containers");
    hide InSpec;
  }

  method PushMount(request: Request, container: Json, k: nat) returns (ops: seq<Op>)
    requires container.Object?
    ensures ops == InItem(k, MountOps(request, container))
  {
    hide InItem, Decimal, Selected, Mount;
    InItemNone(k);
    ops := [];
    if Selected(request, container) {
      if "volumeMounts" !in container.fields {
        InItemAdd(k, ["volumeMounts"], Array([]));
        ops := ops + [Add(["spec", "containers", Decimal(k), "volumeMounts"], Array([]))];
      }
      ghost var create := if "volumeMounts" in container.fields then [] else [Add(["volumeMounts"], Array([]))];
      assert ops == InItem(k, create) by {
        assert ["spec", "containers", Decimal(k)] + ["volumeMounts"] == ["spec", "containers", Decimal(k), "volumeMounts"];
      }
      MountPath(k, request, container);
      InItemJoin(k, create, Under("volumeMounts", Appends([Mount(request)])));
      ops := ops + [Add(["spec", "containers", Decimal(k), "volumeMounts", "-"], Mount(request))];
    }
  }

  lemma MountPath(k: nat, request: Request, container: Json)
    ensures InItem(k, Under("volumeMounts", Appends([Mount(request)]))) ==
              [Add(["spec", "containers", Decimal(k), "volumeMounts", "-"], Mount(request))]
  {
    var mount := Mount(request);
    hide InItem, Decimal, Mount;
    assert Appends([mount]) == [Add(["-"], mount)];
    UnderOne("volumeMounts", ["-"], mount);
    assert ["volumeMounts"] + ["-"] == ["volumeMounts", "-"];
    InItemAdd(k, ["volumeMounts", "-"], mount);
    assert ["spec", "containers", Decimal(k)] + ["volumeMounts", "-"] ==
           ["spec", "containers", Decimal(k), "volumeMounts", "-"];
  }

  method PushWraps(request: Request, containers: seq<Json>) returns (ops: seq<Op>)
    requires forall k :: 0 <= k < |containers| ==> containers[k].Object?
    ensures ops == InSpec("containers", Each(WrapLists(request, containers)))
  {
    hide InSpec, InItem, Each, Decimal, WrapOps;
    NoItems();
    ops := [];
    for k := 0 to |containers|
      invariant ops == InSpec("containers", Each(WrapLists(request, containers)[..k]))
    {
      var pushed := PushWrap(request, containers[k], k);
      var lists := WrapLists(request, containers);
      assert lists[..k] + [lists[k]] == lists[..k + 1];
      PushedItem(lists[..k], lists[k]);
      ops := ops + pushed;
    }
    assert WrapLists(request, containers)[..|containers|] == WrapLists(request, containers);
  }

  method PushWrap(request: Request, container: Json, k: nat) returns (ops: seq<Op>)
    requires container.Object?
    ensures ops == InItem(k, WrapOps(request, container))
  {
    hide InItem, Decimal, Prefix, Probe, Wrapped;
    InItemNone(k);
    ops := [];
    if !Wrapped(request, container) {
      return;
    }
    var command := Array(Prefix(request) + ArrayAt(container.fields, "command") + ArrayAt(container.fields, "args"));
    InItemOther(k, "command", command);
    ops := ops + [Replace(["spec", "containers", Decimal(k), "command"], command)];
    ghost var wrap := [Replace(["command"], command)];
    if "args" in container.fields {
      InItemOther(k, "args", command);
      InItemJoin(k, wrap, [Remove(["args"])]);
      ops := ops + [Remove(["spec", "containers", Decimal(k), "args"])];
      wrap := wrap + [Remove(["args"])];
    }
    if request.envRestart {
      InItemAdd(k, ["livenessProbe"], Probe(request));
      assert ["spec", "containers", Decimal(k)] + ["livenessProbe"] == ["spec", "containers", Decimal(k), "livenessProbe"];
      InItemJoin(k, wrap, [Add(["livenessProbe"], Probe(request))]);
      ops := ops + [Add(["spec", "containers", Decimal(k), "livenessProbe"], Probe(request))];
      wrap := wrap + [Add(["livenessProbe"], Probe(request))];
    }
    assert wrap == WrapOps(request, container);
  }

  method PushMark(metadata: map<string, Json>) returns (ops: seq<Op>)
    ensures ops == Under("metadata", MarkOps(metadata))
  {
    var word := JsonPatch.Word(INJECTED);
    ops := [];
    if "annotations" !in metadata {
      ops := ops + [Add(["metadata", "annotations"], Object(map[]))];
    }
    ops := ops + [Add(["metadata", "annotations", STATUS], word)];
    UnderOne("metadata", ["annotations"], Object(map[]));
    UnderOne("metadata", ["annotations", STATUS], word);
    assert ["metadata"] + ["annotations"] == ["metadata", "annotations"];
    assert ["metadata"] + ["annotations", STATUS] == ["metadata", "annotations", STATUS];
    UnderJoin("metadata", [Add(["annotations"], Object(map[]))], [Add(["annotations", STATUS], word)]);
  }

  method PushInits(request: Request, webhook: Webhook, spec: map<string, Json>) returns (ops: seq<Op>)
    ensures ops == Under("spec", Into(spec, "initContainers", InitOps(request, webhook)))
  {
    hide Agent, ExtraAgents, Appends, InSpec, Under;
    var agent, extras := Agent(request, webhook, false), ExtraAgents(request, webhook, request.extra, false);
    var position := if request.initFirst then "0" else "-";
    ops := [];
    if "initContainers" !in spec {
      ops := ops + [Add(["spec", "initContainers"], Array([]))];
    }
    ghost var create := if "initContainers" in spec then [] else [Add(["initContainers"], Array([]))];
    CreateUnder(spec, "initContainers");
    assert ops == Under("spec", create);
    InSpecOne("initContainers", [position], agent);
    assert ["spec", "initContainers"] + [position] == ["spec", "initContainers", position];
    ops := ops + [Add(["spec", "initContainers", position], agent)];
    var pushed := PushAll("initContainers", extras);
    ops := ops + pushed;
    InSpecJoin("initContainers", [Add([position], agent)], Appends(extras));
    InSpecIs("initContainers", InitOps(request, webhook));
    UnderJoin("spec", create, Under("initContainers", InitOps(request, webhook)));
  }

  /** `patches_for`. */
  method PatchesFor(request: Request, webhook: Webhook, pod: Json) returns (ops: seq<Op>)
    requires PodOk(request, pod)
    ensures ops == Patch(request, webhook, pod)
  {
    hide Run, MarkOps, SpecOk, Under, Into, Volumes, Appends, MountLists, WrapLists, Each, InitOps, Agents, Always,
         InSpec, PullSecrets, SpecOps, StayOps, Containers;
    var spec := pod.fields["spec"].fields;
    ContainersPresent(request, spec);
    var containers := Containers(spec);
    var marks := PushMark(pod.fields["metadata"].fields);
    var volumes := PushInto(spec, "volumes", Volumes(request));
    var mounts := PushMounts(request, containers);
    InSpecIs("containers", Each(MountLists(request, containers)));
    var pulls: seq<Op> := [];
    if webhook.pullSecret.Some? {
      pulls := PushInto(spec, "imagePullSecrets", PullSecrets(webhook));
    }
    var wraps: seq<Op> := [];
    if request.envInject.Some? {
      wraps := PushWraps(request, containers);
    } else {
      NothingWrapped(request, containers);
    }
    InSpecIs("containers", Each(WrapLists(request, containers)));
    var inits: seq<Op> := [];
    if HasInit(request.mode) {
      inits := PushInits(request, webhook, spec);
    }
    var stays := PushStays(request, webhook, spec);
    ops := marks + volumes + mounts + pulls + wraps + inits + stays;
    SpecOpsUnder(request, webhook, spec);
    Regrouped(marks, volumes, mounts, pulls, wraps, inits, stays);
  }

  lemma Regrouped(a: seq<Op>, b: seq<Op>, c: seq<Op>, d: seq<Op>, e: seq<Op>, f: seq<Op>, g: seq<Op>)
    ensures a + b + c + d + e + f + g == a + (b + c + d + e + (f + g))
  {
  }

  lemma {:induction false} NothingWrapped(request: Request, containers: seq<Json>)
    requires request.envInject.None?
    ensures InSpec("containers", Each(WrapLists(request, containers))) == []
    decreases |containers|
  {
    hide Decimal, InSpec, InItem, Each;
    if containers == [] {
      NoItems();
    } else {
      var before, n := containers[..|containers| - 1], |containers| - 1;
      NothingWrapped(request, before);
      var lists := WrapLists(request, containers);
      assert lists == WrapLists(request, before) + [lists[n]];
      PushedItem(WrapLists(request, before), lists[n]);
      assert WrapOps(request, containers[n]) == [];
      InItemNone(n);
    }
  }

  method PushStays(request: Request, webhook: Webhook, spec: map<string, Json>) returns (ops: seq<Op>)
    ensures ops == Under("spec", StayOps(request, webhook, spec))
  {
    hide Under, Appends, Agents, Always, InSpec, Into;
    CreateUnder(spec, "");
    ops := [];
    if !HasAgent(request.mode) {
      return;
    }
    if !request.nativeSidecar {
      ops := PushAll("containers", Agents(request, webhook, true));
      InSpecIs("containers", Appends(Agents(request, webhook, true)));
    } else if request.mode.Both? {
      ops := PushAll("initContainers", Always(Agents(request, webhook, true)));
      InSpecIs("initContainers", Appends(Always(Agents(request, webhook, true))));
    } else {
      ops := PushInto(spec, "initContainers", Always(Agents(request, webhook, true)));
    }
  }

  lemma SpecOpsUnder(request: Request, webhook: Webhook, spec: map<string, Json>)
    ensures Under("spec", SpecOps(request, webhook, spec)) ==
              Under("spec", Into(spec, "volumes", Appends(Volumes(request))))
              + Under("spec", Under("containers", Each(MountLists(request, Containers(spec)))))
              + (if webhook.pullSecret.Some? then Under("spec", Into(spec, "imagePullSecrets", Appends(PullSecrets(webhook)))) else [])
              + Under("spec", Under("containers", Each(WrapLists(request, Containers(spec)))))
              + ((if HasInit(request.mode) then Under("spec", Into(spec, "initContainers", InitOps(request, webhook))) else [])
                 + Under("spec", StayOps(request, webhook, spec)))
  {
    hide Under, Into, Appends, Volumes, Each, MountLists, WrapLists, InitOps, StayOps, PullSecrets;
    CreateUnder(spec, "");
    var volumes := Into(spec, "volumes", Appends(Volumes(request)));
    var mounts := Under("containers", Each(MountLists(request, Containers(spec))));
    var pulls := PullOps(webhook, spec);
    var wraps := Under("containers", Each(WrapLists(request, Containers(spec))));
    var inits := if HasInit(request.mode) then Into(spec, "initContainers", InitOps(request, webhook)) else [];
    UnderJoin("spec", volumes + mounts + pulls + wraps, AgentOps(request, webhook, spec));
    UnderJoin("spec", volumes + mounts + pulls, wraps);
    UnderJoin("spec", volumes + mounts, pulls);
    UnderJoin("spec", volumes, mounts);
    UnderJoin("spec", inits, StayOps(request, webhook, spec));
  }
}
