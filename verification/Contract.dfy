/** What a pod asks for once its annotations are resolved, and the command line the webhook
    writes for it. */
module Contract {
  import opened Wrappers
  import opened Text
  import opened AgentFlags

  datatype Mode = Init | Sidecar | Both

  type Seconds = n: nat | n < U64 witness 0
  type PortNumber = n: nat | n < U16 witness 0

  /** A ConfigMap or a Secret, and the key to read from it. */
  datatype ObjectRef = ObjectRef(name: string, key: string)

  /** One more file cut from the same document. */
  datatype Cut = Cut(path: string, section: Option<string>)

  /** A pass-through flag; an empty value stands for none. */
  datatype Passed = Passed(flag: Flag, value: string)

  /** A named render beside the default one. */
  datatype Extra = Extra(
    name: string,
    source: string,
    endpoint: Option<string>,
    key: string,
    path: string,
    watchSeconds: Seconds,
    arguments: seq<Passed>,
    metricsPort: Option<PortNumber>,
    ca: Option<ObjectRef>,
    ssh: Option<ObjectRef>,
    tls: Option<string>,
    template: Option<ObjectRef>)

  /** An accepted pod's request. `directory` is where the main path lies. */
  datatype Request = Request(
    source: string,
    endpoint: Option<string>,
    key: string,
    path: string,
    directory: string,
    mode: Mode,
    watchSeconds: Seconds,
    arguments: seq<Passed>,
    also: seq<Cut>,
    dynamic: bool,
    meta: bool,
    revokeOnShutdown: bool,
    revokeGrace: Option<Seconds>,
    notifyHttp: Option<string>,
    onDrift: Option<string>,
    tlsReload: bool,
    history: Option<Seconds>,
    requireAck: bool,
    events: bool,
    timeout: Option<Seconds>,
    canary: Option<ObjectRef>,
    metricsPort: Option<PortNumber>,
    ca: Option<ObjectRef>,
    ssh: Option<ObjectRef>,
    tls: Option<string>,
    template: Option<ObjectRef>,
    schema: Option<ObjectRef>,
    extraSecret: Option<string>,
    volumeMemory: bool,
    nativeSidecar: bool,
    initFirst: bool,
    envInject: Option<string>,
    envRestart: bool,
    injectContainers: Option<seq<string>>,
    extra: seq<Extra>)

  const CANARY_MOUNT := "/etc/dynamic-config/canary"

  // ----- the command line -----------------------------------------------------------

  /** One entry of the command line the webhook writes. */
  datatype Item = Valued(flag: Flag, value: string) | Bare(flag: Flag) | Through(passed: Passed)

  /** The words an entry becomes: an empty pass-through value is not written. */
  function Words(item: Item): seq<string> {
    match item
    case Valued(flag, value) => [Name(flag), value]
    case Bare(flag) => [Name(flag)]
    case Through(passed) =>
      if passed.value == "" then [Name(passed.flag)] else [Name(passed.flag), passed.value]
  }

  function CommandLine(items: seq<Item>): seq<string>
    decreases |items|
  {
    if items == [] then [] else CommandLine(items[..|items| - 1]) + Words(items[|items| - 1])
  }

  function When(condition: bool, item: Item): seq<Item> {
    if condition then [item] else []
  }

  function Maybe(flag: Flag, value: Option<string>): seq<Item> {
    match value
    case Some(text) => [Valued(flag, text)]
    case None => []
  }

  function MaybeNumber(flag: Flag, value: Option<nat>): seq<Item> {
    match value
    case Some(n) => [Valued(flag, Decimal(n))]
    case None => []
  }

  function PassedItems(arguments: seq<Passed>): (items: seq<Item>)
    ensures |items| == |arguments|
    ensures forall k :: 0 <= k < |arguments| ==> items[k] == Through(arguments[k])
  {
    if arguments == [] then [] else [Through(arguments[0])] + PassedItems(arguments[1..])
  }

  function CutText(cut: Cut): string {
    "out=" + cut.path + match cut.section { case Some(section) => ",section=" + section case None => "" }
  }

  function CutItems(also: seq<Cut>): (items: seq<Item>)
    ensures |items| == |also|
    ensures forall k :: 0 <= k < |also| ==> items[k] == Valued(Also, CutText(also[k]))
  {
    if also == [] then [] else [Valued(Also, CutText(also[0]))] + CutItems(also[1..])
  }

  function Address(port: PortNumber): string {
    "0.0.0.0:" + Decimal(port)
  }

  function Only(condition: bool, items: seq<Item>): seq<Item> {
    if condition then items else []
  }

  function Port(port: Option<PortNumber>): seq<Item> {
    match port
    case Some(number) => [Valued(MetricsAddr, Address(number))]
    case None => []
  }

  function CanaryItem(canary: Option<ObjectRef>): seq<Item> {
    match canary
    case Some(percent) => [Valued(Canary, CANARY_MOUNT + "/" + percent.key)]
    case None => []
  }

  /** The default render's command line, part by part; what follows the renderings is only
      for the agent that stays. */
  function Part(request: Request, watch: bool, rank: nat): seq<Item> {
    match rank
    case 0 => [Valued(Source, request.source)]
    case 1 => Maybe(Endpoint, request.endpoint)
    case 2 => [Valued(Key, request.key)]
    case 3 => [Valued(Out, request.path)]
    case 4 => PassedItems(request.arguments)
    case 5 => When(watch, Valued(Watch, Decimal(request.watchSeconds)))
    case 6 => When(request.dynamic, Bare(Dynamic))
    case 7 => CutItems(request.also)
    case 8 => When(watch && request.meta, Bare(Meta))
    case 9 => When(watch && request.dynamic && !request.revokeOnShutdown, Bare(NoRevokeOnShutdown))
    case 10 => Only(watch, Maybe(NotifyHttp, request.notifyHttp))
    case 11 => Only(watch, Maybe(OnDrift, request.onDrift))
    case 12 => When(watch && !request.tlsReload, Bare(NoTlsReload))
    case 13 => Only(watch, MaybeNumber(History, request.history))
    case 14 => When(watch && request.requireAck, Bare(RequireAck))
    case 15 => When(watch && request.events, Bare(Events))
    case 16 => Only(watch, MaybeNumber(Timeout, request.timeout))
    case 17 => Only(watch, CanaryItem(request.canary))
    case 18 => Only(watch && request.dynamic && request.revokeOnShutdown, MaybeNumber(RevokeGrace, request.revokeGrace))
    case 19 => Only(watch, Port(request.metricsPort))
    case _ => []
  }

  /** A named render's. */
  function ExtraPart(extra: Extra, watch: bool, rank: nat): seq<Item> {
    match rank
    case 0 => [Valued(Source, extra.source)]
    case 1 => Maybe(Endpoint, extra.endpoint)
    case 2 => [Valued(Key, extra.key)]
    case 3 => [Valued(Out, extra.path)]
    case 4 => PassedItems(extra.arguments)
    case 5 => When(watch, Valued(Watch, Decimal(extra.watchSeconds)))
    case 19 => Only(watch, Port(extra.metricsPort))
    case _ => []
  }

  const RANKS: nat := 20

  function Concat<T>(part: nat -> seq<T>, ranks: nat): seq<T> {
    if ranks == 0 then [] else Concat(part, ranks - 1) + part(ranks - 1)
  }

  function Items(request: Request, watch: bool): seq<Item> {
    Concat((rank: nat) => Part(request, watch, rank), RANKS)
  }

  function ExtraItems(extra: Extra, watch: bool): seq<Item> {
    Concat((rank: nat) => ExtraPart(extra, watch, rank), RANKS)
  }

  /** The words pushed one entry after another. */
  method Write(items: seq<Item>) returns (words: seq<string>)
    ensures words == CommandLine(items)
  {
    hide Name;
    words := [];
    for k := 0 to |items|
      invariant words == CommandLine(items[..k])
    {
      assert items[..k + 1][..k] == items[..k];
      match items[k] {
        case Valued(flag, value) => words := words + [Name(flag), value];
        case Bare(flag) => words := words + [Name(flag)];
        case Through(passed) =>
          words := words + [Name(passed.flag)];
          if passed.value != "" {
            words := words + [passed.value];
          }
      }
    }
    assert items[..|items|] == items;
  }
}
