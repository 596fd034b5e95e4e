/** The agents in the injected pod: where they stand, what their command lines are read as,
    and what their mounts lead to. */
module InjectedAgents {
  import opened Wrappers
  import opened Text
  import opened AgentFlags
  import opened Contract
  import opened JsonPatch
  import opened PodPatch
  import FlagRoundTrip

  // ----- a container and its words --------------------------------------------------

  /** A container of this name whose arguments are these words and whose mounts are these. */
  predicate Runs(container: Json, name: string, words: seq<string>, mounts: seq<Json>) {
    && NameOf(container) == Some(name)
    && PodPatch.Field(container, "volumeMounts") == Some(Array(mounts))
    && PodPatch.Field(container, "args").Some? && PodPatch.Field(container, "args").value.Array?
    && |PodPatch.Field(container, "args").value.items| == |words|
    && forall k :: 0 <= k < |words| ==> PodPatch.Field(container, "args").value.items[k] == JsonPatch.Word(words[k])
  }

  predicate RestartsAlways(container: Json) {
    PodPatch.Field(container, "restartPolicy") == Some(JsonPatch.Word("Always"))
  }

  lemma {:induction false} WordsOfAt(texts: seq<string>, k: nat)
    requires k < |texts|
    ensures WordsOf(texts)[k] == JsonPatch.Word(texts[k])
  {
    if k > 0 {
      WordsOfAt(texts[1..], k - 1);
    }
  }

  lemma ContainerRuns(name: string, words: seq<string>, mounts: seq<Json>, looks: map<string, Json>)
    ensures Runs(Container(name, words, mounts, looks), name, words, mounts)
  {
    forall k | 0 <= k < |words| ensures WordsOf(words)[k] == JsonPatch.Word(words[k]) {
      WordsOfAt(words, k);
    }
    hide WordsOf;
  }

  lemma {:induction false} ExtraAt(request: Request, webhook: Webhook, extra: seq<Extra>, watch: bool, k: nat)
    requires k < |extra|
    ensures |ExtraAgents(request, webhook, extra, watch)| == |extra|
    ensures ExtraAgents(request, webhook, extra, watch)[k] == ExtraAgent(request, webhook, extra[k], watch)
  {
    hide ExtraAgent;
    ExtraLength(request, webhook, extra[1..], watch);
    if k > 0 {
      ExtraAt(request, webhook, extra[1..], watch, k - 1);
    }
  }

  lemma {:induction false} ExtraLength(request: Request, webhook: Webhook, extra: seq<Extra>, watch: bool)
    ensures |ExtraAgents(request, webhook, extra, watch)| == |extra|
  {
    hide ExtraAgent;
    if extra != [] {
      ExtraLength(request, webhook, extra[1..], watch);
    }
  }

  lemma {:induction false} AlwaysAt(containers: seq<Json>, k: nat)
    requires k < |containers|
    ensures |Always(containers)| == |containers|
    ensures containers[k].Object? ==>
              Always(containers)[k] == Object(containers[k].fields["restartPolicy" := JsonPatch.Word("Always")])
  {
    AlwaysLength(containers[1..]);
    if k > 0 {
      AlwaysAt(containers[1..], k - 1);
    }
  }

  lemma {:induction false} AlwaysLength(containers: seq<Json>)
    ensures |Always(containers)| == |containers|
  {
    if containers != [] {
      AlwaysLength(containers[1..]);
    }
  }

  // ----- what a command line asks for -----------------------------------------------

  /** The store, the document and the file are as asked. */
  predicate AsksFor(options: Options, environment: Options, source: string, endpoint: Option<string>, key: string, path: string) {
    && FlagRoundTrip.Field(options, Source) == Some(AgentFlags.Word(source))
    && FlagRoundTrip.Field(options, Key) == Some(AgentFlags.Word(key))
    && FlagRoundTrip.Field(options, Out) == Some(AgentFlags.Word(path))
    && FlagRoundTrip.Field(options, Endpoint) ==
         match endpoint {
           case Some(address) => Some(AgentFlags.Word(address))
           case None => FlagRoundTrip.Field(environment, Endpoint)
         }
  }

  /** It watches, at least a second apart, and serves its metrics where asked. */
  predicate Stays(options: Options, seconds: nat, port: Option<PortNumber>) {
    && FlagRoundTrip.Field(options, Watch) == Some(Count(if seconds == 0 then 1 else seconds))
    && FlagRoundTrip.Field(options, MetricsAddr) ==
         match port {
           case Some(number) => Some(AgentFlags.Word("0.0.0.0:" + Decimal(number)))
           case None => None
         }
  }

  /** It renders once and ends: no watch, and nothing that only a watch has a use for. */
  predicate Ends(options: Options) {
    && (forall flag :: flag in {Watch, MetricsAddr, NotifyHttp, OnDrift, Canary, History, Timeout, RevokeGrace} ==>
          flag !in options.values)
    && options.switches !! {Meta, NoRevokeOnShutdown, NoTlsReload, RequireAck, Events}
  }

  lemma StaysRead(environment: Options, request: Request, reachable: string -> bool)
    requires FlagRoundTrip.Acceptable(environment, request, true, reachable)
    ensures var options := Parse(environment, CommandLine(Items(request, true)), reachable);
            && options.Ok?
            && AsksFor(options.value, environment, request.source, request.endpoint, request.key, request.path)
            && Stays(options.value, request.watchSeconds, request.metricsPort)
            && FlagRoundTrip.Field(options.value, Canary) ==
                 match request.canary {
                   case Some(percent) => Some(AgentFlags.Word("/etc/dynamic-config/canary/" + percent.key))
                   case None => None
                 }
  {
    hide CommandLine, Items, Parse, FlagRoundTrip.Contracted, FlagRoundTrip.NothingEmpty;
    FlagRoundTrip.StoreRecovered(environment, request, true, reachable);
    FlagRoundTrip.SettingsRecovered(environment, request, true, reachable);
    if request.canary.Some? {
      assert CANARY_MOUNT + "/" + request.canary.value.key == "/etc/dynamic-config/canary/" + request.canary.value.key;
    }
  }

  lemma EndsRead(environment: Options, request: Request, reachable: string -> bool)
    requires FlagRoundTrip.Acceptable(environment, request, false, reachable)
    ensures var options := Parse(environment, CommandLine(Items(request, false)), reachable);
            && options.Ok? && Ends(options.value)
            && AsksFor(options.value, environment, request.source, request.endpoint, request.key, request.path)
  {
    hide CommandLine, Items, Parse, FlagRoundTrip.Contracted, FlagRoundTrip.NothingEmpty;
    FlagRoundTrip.StoreRecovered(environment, request, false, reachable);
    FlagRoundTrip.SwitchesRecovered(environment, request, false, reachable);
    FlagRoundTrip.SettingsRecovered(environment, request, false, reachable);
  }

  // ----- where the agents stand -----------------------------------------------------

  function Inits(spec: map<string, Json>): seq<Json> {
    ArrayAt(spec, "initContainers")
  }

  /** An agent that stays, under this name: beside the pod's containers, or, as a native
      sidecar, among its init containers, where it restarts always. */
  ghost predicate StaysIn(request: Request, out: map<string, Json>, name: string, words: seq<string>, mounts: seq<Json>) {
    if request.nativeSidecar then
      exists k :: 0 <= k < |Inits(out)| && Runs(Inits(out)[k], name, words, mounts) && RestartsAlways(Inits(out)[k])
    else
      exists k :: 0 <= k < |Containers(out)| && Runs(Containers(out)[k], name, words, mounts)
  }

  /** One that runs once is among the init containers. */
  ghost predicate EndsIn(out: map<string, Json>, name: string, words: seq<string>, mounts: seq<Json>) {
    exists k :: 0 <= k < |Inits(out)| && Runs(Inits(out)[k], name, words, mounts)
  }

  lemma InitsAre(request: Request, webhook: Webhook, spec: map<string, Json>)
    requires SpecOk(request, spec) && TouchesInits(request)
    ensures Inits(InjectedSpec(request, webhook, spec)) ==
              InitsBefore(request, webhook) + Inits(spec) + InitsAfter(request, webhook)
  {
    hide SpecOk, InitsBefore, InitsAfter, Sidecars, InjectedContainers, Volumes, PullSecrets;
  }

  lemma SidecarAt(request: Request, webhook: Webhook, spec: map<string, Json>, k: nat)
    requires SpecOk(request, spec) && k < |Sidecars(request, webhook)|
    ensures var out := InjectedSpec(request, webhook, spec);
            |Containers(spec)| + k < |Containers(out)| &&
            Containers(out)[|Containers(spec)| + k] == Sidecars(request, webhook)[k]
  {
    hide SpecOk, InjectedSpec, Containers, Sidecars;
    SpecElsewhere(request, webhook, spec);
    var all := Containers(InjectedSpec(request, webhook, spec));
    assert all[|Containers(spec)| + k] == all[|Containers(spec)|..][k];
  }

  lemma AgentsAt(request: Request, webhook: Webhook, watch: bool, k: nat)
    requires k <= |request.extra|
    ensures |Agents(request, webhook, watch)| == 1 + |request.extra|
    ensures Agents(request, webhook, watch)[k] ==
              if k == 0 then Agent(request, webhook, watch) else ExtraAgent(request, webhook, request.extra[k - 1], watch)
  {
    hide Agent, ExtraAgent;
    ExtraLength(request, webhook, request.extra, watch);
    if k > 0 {
      ExtraAt(request, webhook, request.extra, watch, k - 1);
    }
  }

  /** The name and the words of one of them: the default render's, or a named render's. */
  function NameAt(request: Request, watch: bool, k: nat): string
    requires k <= |request.extra|
  {
    var main := if watch then "dynamic-config-agent" else "dynamic-config-init";
    if k == 0 then main else main + "-" + request.extra[k - 1].name
  }

  function WordsAt(request: Request, watch: bool, k: nat): seq<string>
    requires k <= |request.extra|
  {
    CommandLine(if k == 0 then Items(request, watch) else ExtraItems(request.extra[k - 1], watch))
  }

  function MountsAt(request: Request, k: nat): seq<Json>
    requires k <= |request.extra|
  {
    if k == 0 then AgentMounts(request) else ExtraMounts(request, request.extra[k - 1])
  }

  lemma AgentRuns(request: Request, webhook: Webhook, watch: bool, k: nat)
    requires k <= |request.extra|
    ensures |Agents(request, webhook, watch)| == 1 + |request.extra|
    ensures Agents(request, webhook, watch)[k].Object?
    ensures Runs(Agents(request, webhook, watch)[k], NameAt(request, watch, k), WordsAt(request, watch, k), MountsAt(request, k))
  {
    hide Runs, CommandLine, AgentMounts, ExtraMounts;
    AgentsAt(request, webhook, watch, k);
    if k == 0 {
      ContainerRuns(NameAt(request, watch, k), WordsAt(request, watch, k), AgentMounts(request), webhook.looks(watch));
    } else {
      ContainerRuns(NameAt(request, watch, k), WordsAt(request, watch, k), ExtraMounts(request, request.extra[k - 1]),
                    webhook.extraLooks(request.extra[k - 1], watch));
    }
  }

  lemma NativeRuns(agents: seq<Json>, k: nat, name: string, words: seq<string>, mounts: seq<Json>)
    requires k < |agents| && agents[k].Object? && Runs(agents[k], name, words, mounts)
    ensures |Always(agents)| == |agents|
    ensures Runs(Always(agents)[k], name, words, mounts) && RestartsAlways(Always(agents)[k])
  {
    AlwaysAt(agents, k);
    hide Always;
  }

  /** What stands among the init containers after the pod's own, before the native sidecars. */
  function Once(request: Request, webhook: Webhook): seq<Json> {
    if request.mode.Init? || request.mode.Both? then
      (if request.initFirst then [] else [Agent(request, webhook, false)])
      + ExtraAgents(request, webhook, request.extra, false)
    else []
  }

  lemma AfterAre(request: Request, webhook: Webhook)
    ensures InitsAfter(request, webhook) ==
              Once(request, webhook) +
              if (request.mode.Sidecar? || request.mode.Both?) && request.nativeSidecar
              then Always(Agents(request, webhook, true)) else []
  {
    hide Agent, ExtraAgents, Always;
  }

  lemma StaysPlaced(request: Request, webhook: Webhook, spec: map<string, Json>, k: nat)
    requires SpecOk(request, spec) && (request.mode.Sidecar? || request.mode.Both?) && k <= |request.extra|
    ensures StaysIn(request, InjectedSpec(request, webhook, spec), NameAt(request, true, k), WordsAt(request, true, k), MountsAt(request, k))
  {
    hide Agents, NameAt, WordsAt, MountsAt, SpecOk, InjectedSpec, Once, Always, InitsBefore, InitsAfter, Inits, Containers, Runs, RestartsAlways;
    var out, agents := InjectedSpec(request, webhook, spec), Agents(request, webhook, true);
    var name, words, mounts := NameAt(request, true, k), WordsAt(request, true, k), MountsAt(request, k);
    AgentRuns(request, webhook, true, k);
    if request.nativeSidecar {
      InitsAre(request, webhook, spec);
      AfterAre(request, webhook);
      NativeRuns(agents, k, name, words, mounts);
      var before, own, once := InitsBefore(request, webhook), Inits(spec), Once(request, webhook);
      assert Inits(out)[|before| + |own| + |once| + k] == Always(agents)[k];
    } else {
      assert Sidecars(request, webhook) == agents;
      SidecarAt(request, webhook, spec, k);
    }
  }

  lemma EndsPlaced(request: Request, webhook: Webhook, spec: map<string, Json>, k: nat)
    requires SpecOk(request, spec) && (request.mode.Init? || request.mode.Both?) && k <= |request.extra|
    ensures EndsIn(InjectedSpec(request, webhook, spec), NameAt(request, false, k), WordsAt(request, false, k), MountsAt(request, k))
  {
    hide NameAt, WordsAt, MountsAt, SpecOk, InjectedSpec, Agent, ExtraAgents, Always, InitsAfter, Inits, Runs;
    var out, agents := InjectedSpec(request, webhook, spec), Agents(request, webhook, false);
    AgentRuns(request, webhook, false, k);
    InitsAre(request, webhook, spec);
    AfterAre(request, webhook);
    var own, extras := Inits(spec), ExtraAgents(request, webhook, request.extra, false);
    ExtraLength(request, webhook, request.extra, false);
    if request.initFirst {
      assert InitsBefore(request, webhook) == [agents[0]];
      assert Once(request, webhook) == extras;
      assert Inits(out)[if k == 0 then 0 else |own| + k] == agents[k];
    } else {
      assert InitsBefore(request, webhook) == [] && Once(request, webhook) == agents;
      assert Inits(out)[|own| + k] == agents[k];
    }
  }

  // ----- what a mount leads to ------------------------------------------------------

  /** There is a read-only mount at this path, of a volume that is made of this. */
  predicate Leads(mounts: seq<Json>, volumes: seq<Json>, name: string, path: string, made: map<string, Json>) {
    && Object(map["name" := JsonPatch.Word(name), "mountPath" := JsonPatch.Word(path), "readOnly" := JsonPatch.Bool(true)])
       in mounts
    && Object(made["name" := JsonPatch.Word(name)]) in volumes
  }

  function FromMap(name: string): map<string, Json> {
    map["configMap" := Object(map["name" := JsonPatch.Word(name)])]
  }

  /** A Secret's files, with permissions written in decimal: 256 lets the owner read, 292
      everybody. */
  function FromSecret(name: string, mode: nat): map<string, Json> {
    map["secret" := Object(map["secretName" := JsonPatch.Word(name), "defaultMode" := JsonPatch.Number(mode)])]
  }

  /** The rendered files are in memory or on the node, of sixteen mebibytes, and are mounted
      where the pod wants them. */
  predicate Renders(mounts: seq<Json>, volumes: seq<Json>, request: Request) {
    && Object(map["name" := JsonPatch.Word("dynamic-config"), "mountPath" := JsonPatch.Word(request.directory)]) in mounts
    && Object(map["name" := JsonPatch.Word("dynamic-config"),
                  "emptyDir" := Object(if request.volumeMemory
                                       then map["medium" := JsonPatch.Word("Memory"), "sizeLimit" := JsonPatch.Word("16Mi")]
                                       else map["sizeLimit" := JsonPatch.Word("16Mi")])]) in volumes
  }

  /** Each piece of material the default render asks for is under its own path. */
  predicate Supplied(mounts: seq<Json>, volumes: seq<Json>, request: Request) {
    && Renders(mounts, volumes, request)
    && (request.ca.Some? ==>
          Leads(mounts, volumes, "dynamic-config-ca", "/etc/dynamic-config/ca", FromMap(request.ca.value.name)))
    && (request.ssh.Some? ==>
          Leads(mounts, volumes, "dynamic-config-ssh", "/etc/dynamic-config/ssh", FromSecret(request.ssh.value.name, 256)))
    && (request.canary.Some? ==>
          Leads(mounts, volumes, "dynamic-config-canary", "/etc/dynamic-config/canary", FromMap(request.canary.value.name)))
    && (request.extraSecret.Some? ==>
          Leads(mounts, volumes, "dynamic-config-extra", "/etc/dynamic-config/extra", FromSecret(request.extraSecret.value, 292)))
    && (request.tls.Some? ==>
          Leads(mounts, volumes, "dynamic-config-client-tls", "/etc/dynamic-config/tls", FromSecret(request.tls.value, 292)))
    && (request.template.Some? ==>
          Leads(mounts, volumes, "dynamic-config-template", "/etc/dynamic-config/template", FromMap(request.template.value.name)))
    && (request.schema.Some? ==>
          Leads(mounts, volumes, "dynamic-config-schema", "/etc/dynamic-config/schema", FromMap(request.schema.value.name)))
  }

  /** And what a named render asks for, under paths of its own. */
  predicate ExtraSupplied(mounts: seq<Json>, volumes: seq<Json>, request: Request, extra: Extra) {
    && Renders(mounts, volumes, request)
    && (extra.ca.Some? ==>
          Leads(mounts, volumes, "dynamic-config-ca-" + extra.name, "/etc/dynamic-config/ca-" + extra.name,
                FromMap(extra.ca.value.name)))
    && (extra.ssh.Some? ==>
          Leads(mounts, volumes, "dynamic-config-ssh-" + extra.name, "/etc/dynamic-config/ssh-" + extra.name,
                FromSecret(extra.ssh.value.name, 256)))
    && (extra.tls.Some? ==>
          Leads(mounts, volumes, "dynamic-config-client-tls-" + extra.name, "/etc/dynamic-config/tls-" + extra.name,
                FromSecret(extra.tls.value, 292)))
    && (extra.template.Some? ==>
          Leads(mounts, volumes, "dynamic-config-template-" + extra.name, "/etc/dynamic-config/template-" + extra.name,
                FromMap(extra.template.value.name)))
  }

  lemma {:induction false} InConcat<T>(part: nat -> seq<T>, ranks: nat, rank: nat)
    requires rank < ranks
    ensures forall item :: item in part(rank) ==> item in Concat(part, ranks)
  {
    if rank < ranks - 1 {
      InConcat(part, ranks - 1, rank);
    }
  }

  lemma VolumeIn(request: Request, rank: nat, volume: Json)
    requires rank < 9 && volume in VolumePart(request, rank)
    ensures volume in Volumes(request)
  {
    InConcat((r: nat) => VolumePart(request, r), 9, rank);
  }

  lemma MountIn(request: Request, rank: nat, mount: Json)
    requires rank < 8 && mount in MountPart(request, rank)
    ensures mount in AgentMounts(request)
  {
    InConcat((r: nat) => MountPart(request, r), 8, rank);
  }

  /** A piece that is asked for, given the ranks of its mount and its volume. */
  lemma LeadsBy(request: Request, mountRank: nat, volumeRank: nat, name: string, path: string, made: map<string, Json>)
    requires mountRank < 8 && ReadOnly(name, path) in MountPart(request, mountRank)
    requires volumeRank < 9 && Named(name, made) in VolumePart(request, volumeRank)
    ensures Leads(AgentMounts(request), Volumes(request), name, path, made)
  {
    hide MountPart, VolumePart;
    MountIn(request, mountRank, ReadOnly(name, path));
    VolumeIn(request, volumeRank, Named(name, made));
    assert map["mountPath" := JsonPatch.Word(path), "readOnly" := JsonPatch.Bool(true)]["name" := JsonPatch.Word(name)] ==
           map["name" := JsonPatch.Word(name), "mountPath" := JsonPatch.Word(path), "readOnly" := JsonPatch.Bool(true)];
  }

  lemma RendersIn(request: Request, mounts: seq<Json>)
    requires Mount(request) in mounts
    ensures Renders(mounts, Volumes(request), request)
  {
    hide Volumes;
    VolumeIn(request, 0, RenderedVolume(request.volumeMemory));
    assert map["mountPath" := JsonPatch.Word(request.directory)]["name" := JsonPatch.Word("dynamic-config")] ==
           map["name" := JsonPatch.Word("dynamic-config"), "mountPath" := JsonPatch.Word(request.directory)];
    assert map["sizeLimit" := JsonPatch.Word("16Mi")]["medium" := JsonPatch.Word("Memory")] ==
           map["medium" := JsonPatch.Word("Memory"), "sizeLimit" := JsonPatch.Word("16Mi")];
    var directory := Object(if request.volumeMemory
                            then map["medium" := JsonPatch.Word("Memory"), "sizeLimit" := JsonPatch.Word("16Mi")]
                            else map["sizeLimit" := JsonPatch.Word("16Mi")]);
    assert map["emptyDir" := directory]["name" := JsonPatch.Word("dynamic-config")] ==
           map["name" := JsonPatch.Word("dynamic-config"), "emptyDir" := directory];
  }

  lemma MapLeads(request: Request, mountRank: nat, volumeRank: nat, ref: Option<ObjectRef>, name: string, path: string)
    requires mountRank < 8 && MountPart(request, mountRank) == MountWhen(ref, name, path)
    requires volumeRank < 9 && VolumePart(request, volumeRank) == MapVolume(name, ref)
    ensures ref.Some? ==> Leads(AgentMounts(request), Volumes(request), name, path, FromMap(ref.value.name))
  {
    hide MountPart, VolumePart, AgentMounts, Volumes, Leads, ReadOnly, Named;
    if ref.Some? {
      LeadsBy(request, mountRank, volumeRank, name, path, FromMap(ref.value.name));
    }
  }

  lemma SecretLeads(request: Request, mountRank: nat, volumeRank: nat, secret: Option<string>, name: string, path: string)
    requires mountRank < 8 && MountPart(request, mountRank) == MountWhen(secret, name, path)
    requires volumeRank < 9 && VolumePart(request, volumeRank) == OpenSecretVolume(name, secret)
    ensures secret.Some? ==> Leads(AgentMounts(request), Volumes(request), name, path, FromSecret(secret.value, 292))
  {
    hide MountPart, VolumePart, AgentMounts, Volumes, Leads, ReadOnly, Named;
    if secret.Some? {
      LeadsBy(request, mountRank, volumeRank, name, path, FromSecret(secret.value, 292));
    }
  }

  lemma KeyLeads(request: Request)
    ensures request.ssh.Some? ==>
              Leads(AgentMounts(request), Volumes(request), "dynamic-config-ssh", "/etc/dynamic-config/ssh",
                    FromSecret(request.ssh.value.name, 256))
  {
    hide AgentMounts, Volumes, Leads, ReadOnly, Named;
    if request.ssh.Some? {
      LeadsBy(request, 2, 2, "dynamic-config-ssh", "/etc/dynamic-config/ssh", FromSecret(request.ssh.value.name, 256));
    }
  }

  lemma MaterialSupplied(request: Request)
    ensures Supplied(AgentMounts(request), Volumes(request), request)
  {
    MountIn(request, 0, Mount(request));
    RendersIn(request, AgentMounts(request));
    hide AgentMounts, Volumes, Leads, Renders, MountWhen, MapVolume, OpenSecretVolume, Mount, FromMap, FromSecret;
    MapLeads(request, 1, 1, request.ca, "dynamic-config-ca", "/etc/dynamic-config/ca");
    KeyLeads(request);
    MapLeads(request, 3, 4, request.canary, "dynamic-config-canary", "/etc/dynamic-config/canary");
    SecretLeads(request, 4, 3, request.extraSecret, "dynamic-config-extra", "/etc/dynamic-config/extra");
    SecretLeads(request, 5, 5, request.tls, "dynamic-config-client-tls", "/etc/dynamic-config/tls");
    MapLeads(request, 6, 7, request.template, "dynamic-config-template", "/etc/dynamic-config/template");
    MapLeads(request, 7, 8, request.schema, "dynamic-config-schema", "/etc/dynamic-config/schema");
  }

  lemma {:induction false} ExtraVolumeIn(extra: seq<Extra>, k: nat, volume: Json)
    requires k < |extra| && volume in ExtraVolumes(extra[k])
    ensures volume in AllExtraVolumes(extra)
    decreases |extra|
  {
    hide ExtraVolumes;
    if k < |extra| - 1 {
      ExtraVolumeIn(extra[..|extra| - 1], k, volume);
    }
  }

  lemma ExtraLeadsBy(request: Request, k: nat, name: string, path: string, made: map<string, Json>)
    requires k < |request.extra|
    requires ReadOnly(name, path) in ExtraMounts(request, request.extra[k])
    requires Named(name, made) in ExtraVolumes(request.extra[k])
    ensures Leads(ExtraMounts(request, request.extra[k]), Volumes(request), name, path, made)
  {
    hide ExtraMounts, ExtraVolumes, Volumes;
    ExtraVolumeIn(request.extra, k, Named(name, made));
    VolumeIn(request, 6, Named(name, made));
    assert map["mountPath" := JsonPatch.Word(path), "readOnly" := JsonPatch.Bool(true)]["name" := JsonPatch.Word(name)] ==
           map["name" := JsonPatch.Word(name), "mountPath" := JsonPatch.Word(path), "readOnly" := JsonPatch.Bool(true)];
  }

  lemma ExtraMaterialSupplied(request: Request, k: nat)
    requires k < |request.extra|
    ensures ExtraSupplied(ExtraMounts(request, request.extra[k]), Volumes(request), request, request.extra[k])
  {
    var extra := request.extra[k];
    var mounts := ExtraMounts(request, extra);
    assert Mount(request) in mounts;
    RendersIn(request, mounts);
    hide Volumes, Leads, Renders, ReadOnly, Named, Mount;
    if extra.ca.Some? {
      ExtraLeadsBy(request, k, "dynamic-config-ca-" + extra.name, "/etc/dynamic-config/ca-" + extra.name,
                   FromMap(extra.ca.value.name));
    }
    if extra.ssh.Some? {
      ExtraLeadsBy(request, k, "dynamic-config-ssh-" + extra.name, "/etc/dynamic-config/ssh-" + extra.name,
                   FromSecret(extra.ssh.value.name, 256));
    }
    if extra.tls.Some? {
      ExtraLeadsBy(request, k, "dynamic-config-client-tls-" + extra.name, "/etc/dynamic-config/tls-" + extra.name,
                   FromSecret(extra.tls.value, 292));
    }
    if extra.template.Some? {
      ExtraLeadsBy(request, k, "dynamic-config-template-" + extra.name, "/etc/dynamic-config/template-" + extra.name,
                   FromMap(extra.template.value.name));
    }
  }

  lemma MoreVolumes(request: Request, own: seq<Json>, mounts: seq<Json>, more: seq<Json>)
    ensures Supplied(mounts, more, request) ==> Supplied(mounts, own + more, request)
    ensures forall extra :: ExtraSupplied(mounts, more, request, extra) ==> ExtraSupplied(mounts, own + more, request, extra)
  {
    hide FromMap, FromSecret;
  }

  lemma VolumesAre(request: Request, webhook: Webhook, spec: map<string, Json>)
    requires SpecOk(request, spec)
    ensures ArrayAt(InjectedSpec(request, webhook, spec), "volumes") == ArrayAt(spec, "volumes") + Volumes(request)
  {
    SpecElsewhere(request, webhook, spec);
  }

  lemma SuppliedAt(request: Request, webhook: Webhook, spec: map<string, Json>, k: nat)
    requires SpecOk(request, spec) && k <= |request.extra|
    ensures var volumes := ArrayAt(InjectedSpec(request, webhook, spec), "volumes");
            if k == 0 then Supplied(MountsAt(request, k), volumes, request)
            else ExtraSupplied(MountsAt(request, k), volumes, request, request.extra[k - 1])
  {
    hide SpecOk, InjectedSpec, Supplied, ExtraSupplied, AgentMounts, ExtraMounts, Volumes;
    VolumesAre(request, webhook, spec);
    MoreVolumes(request, ArrayAt(spec, "volumes"), MountsAt(request, k), Volumes(request));
    if k == 0 {
      MaterialSupplied(request);
    } else {
      ExtraMaterialSupplied(request, k - 1);
    }
  }

  // ----- in what order --------------------------------------------------------------

  lemma NamedAt(request: Request, webhook: Webhook, watch: bool, k: nat)
    requires k <= |request.extra|
    ensures |Agents(request, webhook, watch)| == 1 + |request.extra|
    ensures NameOf(Agents(request, webhook, watch)[k]) == Some(NameAt(request, watch, k))
    ensures |Always(Agents(request, webhook, watch))| == 1 + |request.extra|
    ensures NameOf(Always(Agents(request, webhook, watch))[k]) == Some(NameAt(request, watch, k))
  {
    AgentRuns(request, webhook, watch, k);
    hide Agents, NameAt, CommandLine, WordsAt, MountsAt;
    NativeRuns(Agents(request, webhook, watch), k, NameAt(request, watch, k), WordsAt(request, watch, k), MountsAt(request, k));
  }

  lemma At<T>(a: seq<T>, b: seq<T>, c: seq<T>, k: nat)
    requires k < |b|
    ensures |a| + k < |a + b + c| && (a + b + c)[|a| + k] == b[k]
  {
  }

  /** The init containers are the pod's own, the agents that run once, and the native sidecars. */
  lemma InitsCount(request: Request, webhook: Webhook, spec: map<string, Json>)
    requires SpecOk(request, spec)
    ensures |Inits(InjectedSpec(request, webhook, spec))| ==
              |Inits(spec)| + (if (request.mode.Init? || request.mode.Both?) then 1 + |request.extra| else 0) +
              (if (request.mode.Sidecar? || request.mode.Both?) && request.nativeSidecar then 1 + |request.extra| else 0)
  {
    hide SpecOk, InjectedSpec, Agents, Inits, InitsBefore, Once, Natives;
    InitsSplit(request, webhook, spec);
    OnceAre(request, webhook);
    NativesAre(request, webhook, 0);
  }

  /** The pod's own stay together and in order, behind the agent where that goes first. */
  lemma OwnInitAt(request: Request, webhook: Webhook, spec: map<string, Json>, j: nat)
    requires SpecOk(request, spec) && j < |Inits(spec)|
    ensures var at := (if (request.mode.Init? || request.mode.Both?) && request.initFirst then 1 else 0) + j;
            at < |Inits(InjectedSpec(request, webhook, spec))| && Inits(InjectedSpec(request, webhook, spec))[at] == Inits(spec)[j]
  {
    hide SpecOk, InjectedSpec, Agents, Inits, InitsBefore, Once, Natives;
    InitsSplit(request, webhook, spec);
    OnceAre(request, webhook);
    var before, own, rest := InitsBefore(request, webhook), Inits(spec), Once(request, webhook) + Natives(request, webhook);
    At(before, own, rest, j);
    assert before + own + Once(request, webhook) + Natives(request, webhook) == before + own + rest;
  }

  /** The agent that runs once comes before the pod's own, if the pod asks for that, and
      otherwise right after them; those of its named renders follow the pod's own. */
  lemma OnceAt(request: Request, webhook: Webhook, spec: map<string, Json>, k: nat)
    requires SpecOk(request, spec) && k <= |request.extra| && (request.mode.Init? || request.mode.Both?)
    ensures var at := if k > 0 then |Inits(spec)| + k else if request.initFirst then 0 else |Inits(spec)|;
            at < |Inits(InjectedSpec(request, webhook, spec))| &&
            NameOf(Inits(InjectedSpec(request, webhook, spec))[at]) == Some(NameAt(request, false, k))
  {
    hide SpecOk, InjectedSpec, Agents, Inits, InitsBefore, Once, Natives, NameAt, NameOf;
    InitsSplit(request, webhook, spec);
    OnceAre(request, webhook);
    NamedAt(request, webhook, false, k);
    var before, own, once := InitsBefore(request, webhook), Inits(spec), Once(request, webhook);
    var natives := Natives(request, webhook);
    if request.initFirst && k == 0 {
      At([], before, own + once + natives, 0);
      assert before + own + once + natives == [] + before + (own + once + natives);
    } else {
      At(before + own, once, natives, if request.initFirst then k - 1 else k);
    }
  }

  /** Native sidecars come last. */
  lemma NativeAt(request: Request, webhook: Webhook, spec: map<string, Json>, k: nat)
    requires SpecOk(request, spec) && k <= |request.extra| && (request.mode.Sidecar? || request.mode.Both?) && request.nativeSidecar
    ensures var at := |Inits(spec)| + (if (request.mode.Init? || request.mode.Both?) then 1 + |request.extra| else 0) + k;
            at < |Inits(InjectedSpec(request, webhook, spec))| &&
            NameOf(Inits(InjectedSpec(request, webhook, spec))[at]) == Some(NameAt(request, true, k))
  {
    hide SpecOk, InjectedSpec, Agents, Inits, InitsBefore, Once, Natives, NameAt, NameOf;
    InitsSplit(request, webhook, spec);
    OnceAre(request, webhook);
    NativesAre(request, webhook, k);
    var ahead := InitsBefore(request, webhook) + Inits(spec) + Once(request, webhook);
    At(ahead, Natives(request, webhook), [], k);
    assert ahead + Natives(request, webhook) + [] == ahead + Natives(request, webhook);
  }

  function Natives(request: Request, webhook: Webhook): seq<Json> {
    if (request.mode.Sidecar? || request.mode.Both?) && request.nativeSidecar
    then Always(Agents(request, webhook, true)) else []
  }

  lemma NativesAre(request: Request, webhook: Webhook, k: nat)
    requires k <= |request.extra|
    ensures var native := (request.mode.Sidecar? || request.mode.Both?) && request.nativeSidecar;
            && |Natives(request, webhook)| == (if native then 1 + |request.extra| else 0)
            && (native ==> NameOf(Natives(request, webhook)[k]) == Some(NameAt(request, true, k)))
  {
    hide NameAt, NameOf, Agents, Always;
    NamedAt(request, webhook, true, k);
  }

  lemma InitsSplit(request: Request, webhook: Webhook, spec: map<string, Json>)
    requires SpecOk(request, spec)
    ensures Inits(InjectedSpec(request, webhook, spec)) ==
              InitsBefore(request, webhook) + Inits(spec) + Once(request, webhook) + Natives(request, webhook)
  {
    hide SpecOk, InjectedSpec, Agent, Agents, ExtraAgents, Always, InitsAfter, Inits;
    if TouchesInits(request) {
      AfterAre(request, webhook);
      InitsAre(request, webhook, spec);
    } else {
      SameInits(request, webhook, spec);
    }
  }

  lemma OnceAre(request: Request, webhook: Webhook)
    ensures var agents := Agents(request, webhook, false);
            && |agents| == 1 + |request.extra|
            && InitsBefore(request, webhook) ==
                 (if (request.mode.Init? || request.mode.Both?) && request.initFirst then agents[..1] else [])
            && Once(request, webhook) ==
                 if !(request.mode.Init? || request.mode.Both?) then []
                 else if request.initFirst then agents[1..] else agents
  {
    hide Agent, ExtraAgents;
    ExtraLength(request, webhook, request.extra, false);
  }

  /** Other sidecars follow the pod's containers. */
  lemma SidecarsInOrder(request: Request, webhook: Webhook, spec: map<string, Json>, k: nat)
    requires SpecOk(request, spec) && k <= |request.extra|
    ensures var out := InjectedSpec(request, webhook, spec);
            var beside := (request.mode.Sidecar? || request.mode.Both?) && !request.nativeSidecar;
            && |Containers(out)| == |Containers(spec)| + (if beside then 1 + |request.extra| else 0)
            && (beside ==> NameOf(Containers(out)[|Containers(spec)| + k]) == Some(NameAt(request, true, k)))
  {
    hide NameAt, NameOf, SpecOk, InjectedSpec, Agents, Containers;
    SpecElsewhere(request, webhook, spec);
    NamedAt(request, webhook, true, k);
    if (request.mode.Sidecar? || request.mode.Both?) && !request.nativeSidecar {
      SidecarAt(request, webhook, spec, k);
    }
  }

  lemma SameInits(request: Request, webhook: Webhook, spec: map<string, Json>)
    requires SpecOk(request, spec) && !TouchesInits(request)
    ensures Inits(InjectedSpec(request, webhook, spec)) == Inits(spec)
  {
    hide SpecOk, Sidecars, InjectedContainers, Volumes, PullSecrets;
  }

  /** The pull secret is added to the pod's own, and there is none where the webhook has none. */
  lemma PullSecretAdded(request: Request, webhook: Webhook, spec: map<string, Json>)
    requires SpecOk(request, spec)
    ensures ArrayAt(InjectedSpec(request, webhook, spec), "imagePullSecrets") ==
              ArrayAt(spec, "imagePullSecrets") +
              match webhook.pullSecret {
                case Some(name) => [Object(map["name" := JsonPatch.Word(name)])]
                case None => []
              }
  {
    hide SpecOk, Sidecars, InjectedContainers, Volumes, InitsBefore, InitsAfter;
  }

  // ----- the pod's own containers ---------------------------------------------------

  /** The script the wrapper runs: it sources the very file that the agent's command line
      says to write, and then becomes the container's own command. */
  function Sources(request: Request): string {
    "set -a; . " + request.path +
    if request.envRestart then
      "; set +a; export DYNAMIC_CONFIG_ENV_FINGERPRINT=\"$(cksum < " + request.path + ")\"; exec \"$@\""
    else "; set +a; exec \"$@\""
  }

  lemma ScriptSources(request: Request)
    ensures Prefix(request) == [JsonPatch.Word("/bin/sh"), JsonPatch.Word("-c"), JsonPatch.Word(Sources(request)),
                                JsonPatch.Word("dynamic-config-env")]
  {
    var words := ["/bin/sh", "-c", Script(request), "dynamic-config-env"];
    forall k | 0 <= k < 4 ensures WordsOf(words)[k] == JsonPatch.Word(words[k]) {
      WordsOfAt(words, k);
    }
    assert Script(request) == Sources(request);
  }

  /** What the pod's own container `k` is afterwards: with the rendered files mounted where
      the pod wants them unless the pod chose others, its command behind the wrapper if it is
      the one named for that, and then a probe that fails once when the file has changed. */
  lemma OwnContainer(request: Request, webhook: Webhook, spec: map<string, Json>, k: nat)
    requires SpecOk(request, spec) && k < |Containers(spec)|
    ensures var out := InjectedSpec(request, webhook, spec);
            k < |Containers(out)| && Containers(spec)[k].Object? && Containers(out)[k].Object?
    ensures var before, after := Containers(spec)[k], Containers(InjectedSpec(request, webhook, spec))[k];
            var chosen := request.injectContainers.None? ||
                          (NameOf(before).Some? && NameOf(before).value in request.injectContainers.value);
            var wrapped := request.envInject.Some? && NameOf(before) == request.envInject;
            && ArrayAt(after.fields, "volumeMounts") ==
                 ArrayAt(before.fields, "volumeMounts") +
                 (if chosen then [Object(map["name" := JsonPatch.Word("dynamic-config"),
                                             "mountPath" := JsonPatch.Word(request.directory)])] else [])
            && (wrapped ==>
                  && ArrayAt(after.fields, "command") ==
                       [JsonPatch.Word("/bin/sh"), JsonPatch.Word("-c"), JsonPatch.Word(Sources(request)),
                        JsonPatch.Word("dynamic-config-env")] +
                       ArrayAt(before.fields, "command") + ArrayAt(before.fields, "args")
                  && "args" !in after.fields)
            && (!wrapped ==> PodPatch.Field(after, "command") == PodPatch.Field(before, "command") &&
                             PodPatch.Field(after, "args") == PodPatch.Field(before, "args"))
            && PodPatch.Field(after, "livenessProbe") ==
                 if wrapped && request.envRestart then Some(Compares(request)) else PodPatch.Field(before, "livenessProbe")
  {
    hide SpecOk, InjectedSpec, Containers, Prefix, Probe, Sources;
    ContainerKept(request, webhook, spec, k);
    ScriptSources(request);
    ProbeCompares(request);
    if !request.envRestart {
      ProbeKept(request, webhook, spec, k);
    }
    assert map["mountPath" := JsonPatch.Word(request.directory)]["name" := JsonPatch.Word("dynamic-config")] ==
           map["name" := JsonPatch.Word("dynamic-config"), "mountPath" := JsonPatch.Word(request.directory)];
  }

  /** A wrapped container that is not to restart keeps its probe. */
  lemma ProbeKept(request: Request, webhook: Webhook, spec: map<string, Json>, k: nat)
    requires SpecOk(request, spec) && k < |Containers(spec)| && !request.envRestart
    ensures k < |Containers(InjectedSpec(request, webhook, spec))|
    ensures PodPatch.Field(Containers(InjectedSpec(request, webhook, spec))[k], "livenessProbe") ==
              PodPatch.Field(Containers(spec)[k], "livenessProbe")
  {
    hide Volumes, ContainersOk, PullSecrets, Sidecars, InitsBefore, InitsAfter, InjectedContainer;
    ContainersPresent(request, spec);
    assert Containers(InjectedSpec(request, webhook, spec))[k] == InjectedContainer(request, Containers(spec)[k]);
    hide InjectedSpec;
    SameProbe(request, Containers(spec)[k]);
  }

  lemma SameProbe(request: Request, before: Json)
    requires before.Object? && !request.envRestart
    ensures PodPatch.Field(InjectedContainer(request, before), "livenessProbe") == PodPatch.Field(before, "livenessProbe")
  {
    hide Prefix, Mount, Selected, Wrapped;
  }

  /** The probe compares the file with what the wrapper saw, every watch interval, but between
      ten seconds and two minutes, and fails at once. */
  function Compares(request: Request): Json {
    var seconds := if 10 <= request.watchSeconds <= 120 then request.watchSeconds
                   else if request.watchSeconds < 10 then 10 else 120;
    Object(map["failureThreshold" := JsonPatch.Number(1), "periodSeconds" := JsonPatch.Number(seconds),
               "exec" := Object(map["command" := Array([JsonPatch.Word("/bin/sh"), JsonPatch.Word("-c"),
                 JsonPatch.Word("test \"$(cksum < " + request.path + ")\" = \"$DYNAMIC_CONFIG_ENV_FINGERPRINT\"")])])])
  }

  lemma ProbeCompares(request: Request)
    ensures Probe(request) == Compares(request)
  {
    var test := "test \"$(cksum < " + request.path + ")\" = \"$DYNAMIC_CONFIG_ENV_FINGERPRINT\"";
    var words := ["/bin/sh", "-c", test];
    forall k | 0 <= k < 3 ensures WordsOf(words)[k] == JsonPatch.Word(words[k]) {
      WordsOfAt(words, k);
    }
    assert WordsOf(words) == [JsonPatch.Word("/bin/sh"), JsonPatch.Word("-c"), JsonPatch.Word(test)];
  }

  // ----- and so ---------------------------------------------------------------------

  /** In every injected pod that is to keep a configuration up to date there is a container
      `dynamic-config-agent` that is read as watching for what was asked, and one for each
      named render under its name. */
  lemma AgentsStay(request: Request, webhook: Webhook, spec: map<string, Json>, environment: Options, reachable: string -> bool)
    requires SpecOk(request, spec) && (request.mode.Sidecar? || request.mode.Both?)
    ensures FlagRoundTrip.Acceptable(environment, request, true, reachable) ==>
              exists words, mounts :: StaysIn(request, InjectedSpec(request, webhook, spec), "dynamic-config-agent", words, mounts) &&
                Supplied(mounts, ArrayAt(InjectedSpec(request, webhook, spec), "volumes"), request) &&
                var options := Parse(environment, words, reachable);
                && options.Ok?
                && AsksFor(options.value, environment, request.source, request.endpoint, request.key, request.path)
                && Stays(options.value, request.watchSeconds, request.metricsPort)
    ensures forall k :: 0 <= k < |request.extra| &&
                        FlagRoundTrip.Acceptable(environment, FlagRoundTrip.AsRequest(request.extra[k]), true, reachable) ==>
              var extra := request.extra[k];
              exists words, mounts ::
                StaysIn(request, InjectedSpec(request, webhook, spec), "dynamic-config-agent-" + extra.name, words, mounts) &&
                ExtraSupplied(mounts, ArrayAt(InjectedSpec(request, webhook, spec), "volumes"), request, extra) &&
                var options := Parse(environment, words, reachable);
                && options.Ok?
                && AsksFor(options.value, environment, extra.source, extra.endpoint, extra.key, extra.path)
                && Stays(options.value, extra.watchSeconds, extra.metricsPort)
  {
    hide SpecOk, InjectedSpec, StaysIn, AsksFor, Stays, Supplied, ExtraSupplied, AgentMounts, ExtraMounts, CommandLine, Items, ExtraItems, Parse;
    StaysPlaced(request, webhook, spec, 0);
    SuppliedAt(request, webhook, spec, 0);
    if FlagRoundTrip.Acceptable(environment, request, true, reachable) {
      StaysRead(environment, request, reachable);
    }
    forall k | 0 <= k < |request.extra| &&
               FlagRoundTrip.Acceptable(environment, FlagRoundTrip.AsRequest(request.extra[k]), true, reachable)
      ensures var extra := request.extra[k];
              exists words, mounts ::
                StaysIn(request, InjectedSpec(request, webhook, spec), "dynamic-config-agent-" + extra.name, words, mounts) &&
                ExtraSupplied(mounts, ArrayAt(InjectedSpec(request, webhook, spec), "volumes"), request, extra) &&
                var options := Parse(environment, words, reachable);
                && options.Ok?
                && AsksFor(options.value, environment, extra.source, extra.endpoint, extra.key, extra.path)
                && Stays(options.value, extra.watchSeconds, extra.metricsPort)
    {
      var extra := request.extra[k];
      StaysPlaced(request, webhook, spec, k + 1);
      SuppliedAt(request, webhook, spec, k + 1);
      StaysRead(environment, FlagRoundTrip.AsRequest(extra), reachable);
      FlagRoundTrip.ExtraIsRequest(extra, true);
      assert "dynamic-config-agent" + "-" + extra.name == "dynamic-config-agent-" + extra.name;
    }
  }

  /** And in every one that is to have it before it starts there is an init container
      `dynamic-config-init` that is read as rendering once and ending, and one for each named
      render. */
  lemma AgentsEnd(request: Request, webhook: Webhook, spec: map<string, Json>, environment: Options, reachable: string -> bool)
    requires SpecOk(request, spec) && (request.mode.Init? || request.mode.Both?)
    ensures FlagRoundTrip.Acceptable(environment, request, false, reachable) ==>
              exists words, mounts :: EndsIn(InjectedSpec(request, webhook, spec), "dynamic-config-init", words, mounts) &&
                Supplied(mounts, ArrayAt(InjectedSpec(request, webhook, spec), "volumes"), request) &&
                var options := Parse(environment, words, reachable);
                && options.Ok? && Ends(options.value)
                && AsksFor(options.value, environment, request.source, request.endpoint, request.key, request.path)
    ensures forall k :: 0 <= k < |request.extra| &&
                        FlagRoundTrip.Acceptable(environment, FlagRoundTrip.AsRequest(request.extra[k]), false, reachable) ==>
              var extra := request.extra[k];
              exists words, mounts ::
                EndsIn(InjectedSpec(request, webhook, spec), "dynamic-config-init-" + extra.name, words, mounts) &&
                ExtraSupplied(mounts, ArrayAt(InjectedSpec(request, webhook, spec), "volumes"), request, extra) &&
                var options := Parse(environment, words, reachable);
                && options.Ok? && Ends(options.value)
                && AsksFor(options.value, environment, extra.source, extra.endpoint, extra.key, extra.path)
  {
    hide SpecOk, InjectedSpec, EndsIn, AsksFor, Ends, Supplied, ExtraSupplied, AgentMounts, ExtraMounts, CommandLine, Items, ExtraItems, Parse;
    EndsPlaced(request, webhook, spec, 0);
    SuppliedAt(request, webhook, spec, 0);
    if FlagRoundTrip.Acceptable(environment, request, false, reachable) {
      EndsRead(environment, request, reachable);
    }
    forall k | 0 <= k < |request.extra| &&
               FlagRoundTrip.Acceptable(environment, FlagRoundTrip.AsRequest(request.extra[k]), false, reachable)
      ensures var extra := request.extra[k];
              exists words, mounts ::
                EndsIn(InjectedSpec(request, webhook, spec), "dynamic-config-init-" + extra.name, words, mounts) &&
                ExtraSupplied(mounts, ArrayAt(InjectedSpec(request, webhook, spec), "volumes"), request, extra) &&
                var options := Parse(environment, words, reachable);
                && options.Ok? && Ends(options.value)
                && AsksFor(options.value, environment, extra.source, extra.endpoint, extra.key, extra.path)
    {
      var extra := request.extra[k];
      EndsPlaced(request, webhook, spec, k + 1);
      SuppliedAt(request, webhook, spec, k + 1);
      EndsRead(environment, FlagRoundTrip.AsRequest(extra), reachable);
      FlagRoundTrip.ExtraIsRequest(extra, false);
      assert "dynamic-config-init" + "-" + extra.name == "dynamic-config-init-" + extra.name;
    }
  }
}
