/** The admission decision: a class fills in what a pod left out, a pod is injected once, and
    a second admission of it changes nothing. */
module Readmission {
  import opened Wrappers
  import opened Contract
  import opened JsonPatch
  import opened PodPatch
  import opened Collisions

  datatype Admission = Allowed | Refused | Patched(ops: seq<Op>)

  /** A class of stores. `credentialIn` is where its credential lives, if not with the pod. */
  datatype Class = Class(
    source: string,
    endpoint: string,
    tokenSecret: Option<string>,
    admits: string -> bool,
    credentialIn: Option<string>)

  /** What an admission depends on beside the pod: the classes in the cache, the contract as
      this installation resolves it, and the installation's gates. */
  datatype Server = Server(
    resolve: (string, string) -> Option<Class>,
    request: Json -> Result<Request>,
    permits: (Request, string) -> bool,
    webhook: Webhook)

  const PREFIX := "dynamic-config.rs/"

  function Annotations(pod: Json): Option<map<string, Json>> {
    match Field(pod, "metadata")
    case Some(metadata) =>
      (match Field(metadata, "annotations")
       case Some(Object(fields)) => Some(fields)
       case _ => None)
    case None => None
  }

  /** An annotation, when it is a string. */
  function Text(annotations: map<string, Json>, key: string): Option<string> {
    match Field(Object(annotations), key)
    case Some(Word(text)) => Some(text)
    case _ => None
  }

  predicate IsAgent(container: Json) {
    NameOf(container) == Some(AgentName(true)) || NameOf(container) == Some(AgentName(false))
  }

  predicate SomeAgent(containers: seq<Json>) {
    exists k :: 0 <= k < |containers| && IsAgent(containers[k])
  }

  /** Whether the pod carries the agent, under either of its names. */
  predicate AlreadyInjected(pod: Json) {
    var spec := FieldsAt(pod, "spec");
    SomeAgent(ArrayAt(spec, "containers")) || SomeAgent(ArrayAt(spec, "initContainers"))
  }

  function Fill(annotations: map<string, Json>, name: string, value: string): map<string, Json> {
    if PREFIX + name in annotations then annotations else annotations[PREFIX + name := Word(value)]
  }

  function Filled(annotations: map<string, Json>, chosen: Class): map<string, Json> {
    var stored := Fill(Fill(annotations, "source", chosen.source), "endpoint", chosen.endpoint);
    match chosen.tokenSecret
    case Some(secret) => Fill(stored, "token-secret", secret)
    case None => stored
  }

  function WithAnnotations(pod: Json, annotations: map<string, Json>): Json
    requires Annotations(pod).Some?
  {
    var metadata := pod.fields["metadata"];
    Object(pod.fields["metadata" := Object(metadata.fields["annotations" := Object(annotations)])])
  }

  /** `with_class`: the pod with its class's values where it set none of its own. */
  function WithClass(pod: Json, namespace: string, server: Server): Result<Option<Json>> {
    match Annotations(pod)
    case None => Ok(None)
    case Some(annotations) =>
      if Text(annotations, STATUS) == Some(INJECTED) then Ok(None)
      else
        (match Text(annotations, PREFIX + "class")
         case None => Ok(None)
         case Some(name) =>
           (match server.resolve(namespace, name)
            case None => Err
            case Some(found) =>
              if !found.admits(namespace) then Err
              else if found.credentialIn.Some? && found.credentialIn.value != namespace then Err
              else Ok(Some(WithAnnotations(pod, Filled(annotations, found))))))
  }

  /** `of_pod_with`: the guards, then the contract, and the check on the wrapped container. */
  function OfPod(pod: Json, server: Server): Result<Option<Request>> {
    match Annotations(pod)
    case None => Ok(None)
    case Some(annotations) =>
      (match Text(annotations, STATUS)
       case Some(mark) => if mark == INJECTED && AlreadyInjected(pod) then Ok(None) else Err
       case None =>
         (match Text(annotations, PREFIX + "inject")
          case None => Ok(None)
          case Some(inject) =>
            if inject == "true" then
              (var request :- server.request(pod);
               if EnvAccepted(request, Containers(FieldsAt(pod, "spec"))) then Ok(Some(request)) else Err)
            else if inject == "false" then Ok(None)
            else Err))
  }

  /** `admission_response_with_classes`. */
  function Admit(pod: Json, namespace: string, server: Server): Admission {
    match WithClass(pod, namespace, server)
    case Err => Refused
    case Ok(filled) =>
      var pod := filled.GetOr(pod);
      (match OfPod(pod, server)
       case Err => Refused
       case Ok(None) => Allowed
       case Ok(Some(request)) =>
         if !server.permits(request, namespace) || Collides(request, FieldsAt(pod, "spec")).Some? then Refused
         else Patched(Patch(request, server.webhook, pod)))
  }

  // ----- the class ------------------------------------------------------------------

  lemma FillKeeps(annotations: map<string, Json>, name: string, value: string, key: string)
    ensures key in annotations ==> key in Fill(annotations, name, value) && Fill(annotations, name, value)[key] == annotations[key]
    ensures key != PREFIX + name ==> (key in Fill(annotations, name, value) <==> key in annotations)
    ensures PREFIX + name in Fill(annotations, name, value)
  {
  }

  /** A class is a default: whatever the pod says stays, and only its store, its address and
      its token can be added. */
  lemma ClassOnlyFills(annotations: map<string, Json>, chosen: Class, key: string)
    ensures var filled := Filled(annotations, chosen);
            && (key in annotations ==> key in filled && filled[key] == annotations[key])
            && (key in filled ==> key in annotations || key == PREFIX + "source" || key == PREFIX + "endpoint" ||
                                  key == PREFIX + "token-secret")
            && PREFIX + "source" in filled && PREFIX + "endpoint" in filled
  {
    hide Fill;
    var once := Fill(annotations, "source", chosen.source);
    var twice := Fill(once, "endpoint", chosen.endpoint);
    FillKeeps(annotations, "source", chosen.source, key);
    FillKeeps(once, "endpoint", chosen.endpoint, key);
    FillKeeps(once, "endpoint", chosen.endpoint, PREFIX + "source");
    if chosen.tokenSecret.Some? {
      FillKeeps(twice, "token-secret", chosen.tokenSecret.value, key);
      FillKeeps(twice, "token-secret", chosen.tokenSecret.value, PREFIX + "source");
      FillKeeps(twice, "token-secret", chosen.tokenSecret.value, PREFIX + "endpoint");
    }
  }

  /** What the class fills in does not show in the patch, so the patch cut from the filled pod
      fits the pod that was sent. */
  lemma SamePatch(request: Request, webhook: Webhook, pod: Json, annotations: map<string, Json>)
    requires Annotations(pod).Some?
    ensures var filled := WithAnnotations(pod, annotations);
            Patch(request, webhook, filled) == Patch(request, webhook, pod) &&
            FieldsAt(filled, "spec") == FieldsAt(pod, "spec")
  {
    hide SpecOps, Under;
    var filled := WithAnnotations(pod, annotations);
    assert FieldsAt(filled, "spec") == FieldsAt(pod, "spec");
    assert MarkOps(FieldsAt(filled, "metadata")) == MarkOps(FieldsAt(pod, "metadata"));
  }

  // ----- the decision ---------------------------------------------------------------

  /** What a class says, annotation by annotation. */
  function Says(chosen: Class): map<string, Json> {
    map["dynamic-config.rs/source" := Word(chosen.source), "dynamic-config.rs/endpoint" := Word(chosen.endpoint)]
    + match chosen.tokenSecret {
        case Some(secret) => map["dynamic-config.rs/token-secret" := Word(secret)]
        case None => map[]
      }
  }

  /** What the pod says stands before what its class says. */
  lemma FilledUnder(annotations: map<string, Json>, chosen: Class)
    ensures Filled(annotations, chosen) == Says(chosen) + annotations
  {
    assert PREFIX + "source" == "dynamic-config.rs/source" && PREFIX + "endpoint" == "dynamic-config.rs/endpoint";
    assert PREFIX + "token-secret" == "dynamic-config.rs/token-secret";
    assert |"dynamic-config.rs/source"| == 24 && |"dynamic-config.rs/endpoint"| == 26;
    assert |"dynamic-config.rs/token-secret"| == 30;
  }

  /** One of the pod's annotations is this text. */
  predicate Annotated(pod: Json, key: string, text: string) {
    Annotations(pod).Some? && key in Annotations(pod).value && Annotations(pod).value[key] == Word(text)
  }

  /** It has no such annotation, or not as a string. */
  predicate Silent(pod: Json, key: string) {
    match Annotations(pod)
    case None => true
    case Some(annotations) => key in annotations ==> !annotations[key].Word?
  }

  /** The class may be used from here: it is known, admits the namespace, and its credential
      is nobody else's. */
  predicate Usable(server: Server, namespace: string, name: string) {
    match server.resolve(namespace, name)
    case None => false
    case Some(found) => found.admits(namespace) && (found.credentialIn == None || found.credentialIn == Some(namespace))
  }

  /** The pod as the contract reads it: its own annotations over those of its class. */
  ghost predicate ReadAs(pod: Json, namespace: string, server: Server, seen: Json) {
    if Silent(pod, "dynamic-config.rs/class") then seen == pod
    else
      exists name :: Annotated(pod, "dynamic-config.rs/class", name) && Usable(server, namespace, name) &&
                     seen == WithAnnotations(pod, Says(server.resolve(namespace, name).value) + Annotations(pod).value)
  }

  /** The pod asked, and nothing stands against it. */
  ghost predicate Granted(pod: Json, namespace: string, server: Server, seen: Json, request: Request) {
    && Silent(pod, "dynamic-config.rs/status")
    && ReadAs(pod, namespace, server, seen)
    && Annotated(seen, "dynamic-config.rs/inject", "true")
    && server.request(seen) == Ok(request)
    && EnvAccepted(request, Containers(FieldsAt(pod, "spec")))
    && server.permits(request, namespace)
    && (forall name :: name in PodNames(FieldsAt(pod, "spec")) ==> !Looked(request, |request.extra|, name))
  }

  lemma SilentText(pod: Json, key: string)
    requires Annotations(pod).Some?
    ensures Silent(pod, key) <==> Text(Annotations(pod).value, key).None?
    ensures forall text :: Annotated(pod, key, text) <==> Text(Annotations(pod).value, key) == Some(text)
  {
  }
  /** What the contract is given, when the class lets it be given anything. */
  lemma ReadExactly(pod: Json, namespace: string, server: Server, seen: Json)
    requires Silent(pod, "dynamic-config.rs/status") && Annotations(pod).Some?
    ensures ReadAs(pod, namespace, server, seen) <==>
              WithClass(pod, namespace, server).Ok? && seen == WithClass(pod, namespace, server).value.GetOr(pod)
  {
    assert PREFIX + "class" == "dynamic-config.rs/class" && STATUS == "dynamic-config.rs/status";
    hide Text, Filled, Annotated, Silent, Says, WithAnnotations;
    SilentText(pod, "dynamic-config.rs/status");
    SilentText(pod, "dynamic-config.rs/class");
    var annotations := Annotations(pod).value;
    var class' := Text(annotations, "dynamic-config.rs/class");
    if class'.Some? && server.resolve(namespace, class'.value).Some? {
      FilledUnder(annotations, server.resolve(namespace, class'.value).value);
    }
  }

  /** Filling in a class leaves the spec, and the annotations that are not a class's. */
  lemma ReadKeeps(pod: Json, namespace: string, server: Server, seen: Json)
    requires Annotations(pod).Some? && ReadAs(pod, namespace, server, seen)
    ensures FieldsAt(seen, "spec") == FieldsAt(pod, "spec") && Annotations(seen).Some?
    ensures forall key, text :: key in ["dynamic-config.rs/status", "dynamic-config.rs/inject"] ==>
              (Annotated(seen, key, text) <==> Annotated(pod, key, text))
  {
    assert |"dynamic-config.rs/source"| == 24 && |"dynamic-config.rs/endpoint"| == 26;
    assert |"dynamic-config.rs/token-secret"| == 30;
    assert |"dynamic-config.rs/status"| == 24 && "dynamic-config.rs/status"[19] != "dynamic-config.rs/source"[19];
    assert |"dynamic-config.rs/inject"| == 24 && "dynamic-config.rs/inject"[18] != "dynamic-config.rs/source"[18];
    hide Usable, Silent;
  }

  /** What the contract is given of a pod with a class: the same pod, but for the annotations
      the class adds. */
  lemma SeenExactly(pod: Json, namespace: string, server: Server, seen: Json)
    requires Annotations(pod).Some? && ReadAs(pod, namespace, server, seen)
    ensures forall key :: key != "metadata" ==> PodPatch.Field(seen, key) == PodPatch.Field(pod, key)
    ensures forall key :: key != "annotations" ==>
              PodPatch.Field(seen.fields["metadata"], key) == PodPatch.Field(pod.fields["metadata"], key)
    ensures if Silent(pod, "dynamic-config.rs/class") then Annotations(seen) == Annotations(pod)
            else exists name :: Annotated(pod, "dynamic-config.rs/class", name) && Usable(server, namespace, name) &&
                   Annotations(seen) == Some(Says(server.resolve(namespace, name).value) + Annotations(pod).value)
  {
    if !Silent(pod, "dynamic-config.rs/class") {
      var name :| Annotated(pod, "dynamic-config.rs/class", name) && Usable(server, namespace, name) &&
                  seen == WithAnnotations(pod, Says(server.resolve(namespace, name).value) + Annotations(pod).value);
      assert Annotations(seen) == Some(Says(server.resolve(namespace, name).value) + Annotations(pod).value);
    }
  }

  /** The decision on a pod that is not marked, once its class is filled in. */
  lemma DecidedExactly(pod: Json, server: Server)
    requires Annotations(pod).Some? && Silent(pod, "dynamic-config.rs/status")
    ensures forall request :: OfPod(pod, server) == Ok(Some(request)) <==>
              Annotated(pod, "dynamic-config.rs/inject", "true") && server.request(pod) == Ok(request) &&
              EnvAccepted(request, Containers(FieldsAt(pod, "spec")))
    ensures OfPod(pod, server) == Ok(None) <==>
              Silent(pod, "dynamic-config.rs/inject") || Annotated(pod, "dynamic-config.rs/inject", "false")
  {
    assert PREFIX + "inject" == "dynamic-config.rs/inject" && STATUS == "dynamic-config.rs/status";
    assert |"true"| == 4 && |"false"| == 5;
    hide Text, Annotated, Silent, EnvAccepted, AlreadyInjected, Containers, FieldsAt;
    SilentText(pod, "dynamic-config.rs/status");
    SilentText(pod, "dynamic-config.rs/inject");
  }

  lemma NothingTaken(request: Request, spec: map<string, Json>)
    ensures Collides(request, spec).None? <==>
              forall name :: name in PodNames(spec) ==> !Looked(request, |request.extra|, name)
  {
    hide PodNames, Wanted, Looked;
    forall name ensures name in Wanted(request, |request.extra|) <==> Looked(request, |request.extra|, name) {
      WantedExactly(request, |request.extra|, name);
    }
    FirstInExactly(PodNames(spec), Wanted(request, |request.extra|));
  }

  /** A pod is patched exactly when it carries no mark, says `"true"`, its class, if it names
      one, may be used from here, the contract accepts what it says over what the class says,
      the gates permit that, and none of its containers has a name that is looked for; and
      then the patch makes exactly the injected pod. */
  lemma PatchedExactly(pod: Json, namespace: string, server: Server)
    ensures Admit(pod, namespace, server).Patched? <==>
              exists seen, request :: Granted(pod, namespace, server, seen, request)
    ensures forall seen, request :: Granted(pod, namespace, server, seen, request) ==>
              && Admit(pod, namespace, server) == Patched(Patch(request, server.webhook, pod))
              && (PodShape(pod) && Unique(NamesIn(Containers(FieldsAt(pod, "spec")))) ==>
                    PodOk(request, pod) &&
                    Run(pod, Admit(pod, namespace, server).ops) == Ok(Injected(request, server.webhook, pod)))
  {
    forall seen, request | Granted(pod, namespace, server, seen, request)
      ensures Admit(pod, namespace, server) == Patched(Patch(request, server.webhook, pod))
      ensures PodShape(pod) && Unique(NamesIn(Containers(FieldsAt(pod, "spec")))) ==>
                PodOk(request, pod) &&
                Run(pod, Admit(pod, namespace, server).ops) == Ok(Injected(request, server.webhook, pod))
    {
      GrantedPatches(pod, namespace, server, seen, request);
      hide Patch, PodShape, Unique, NamesIn, Run, Injected, PodOk, Admit, EnvAccepted;
      if PodShape(pod) && Unique(NamesIn(Containers(FieldsAt(pod, "spec")))) {
        AcceptedOk(request, pod);
        PatchInjects(request, server.webhook, pod);
      }
    }
    if Admit(pod, namespace, server).Patched? {
      PatchedGranted(pod, namespace, server);
    }
  }

  lemma GrantedPatches(pod: Json, namespace: string, server: Server, seen: Json, request: Request)
    requires Granted(pod, namespace, server, seen, request)
    ensures Admit(pod, namespace, server) == Patched(Patch(request, server.webhook, pod))
  {
    hide Patch, PodNames, Looked, EnvAccepted, Collides, WithClass, OfPod, Silent, Annotated, ReadAs;
    WasAnnotated(pod, namespace, server, seen);
    ReadExactly(pod, namespace, server, seen);
    ReadKeeps(pod, namespace, server, seen);
    StillSilent(pod, seen, "dynamic-config.rs/status");
    DecidedExactly(seen, server);
    NothingTaken(request, FieldsAt(pod, "spec"));
    SeenPatch(pod, namespace, server, seen, request);
  }

  lemma SeenPatch(pod: Json, namespace: string, server: Server, seen: Json, request: Request)
    requires Annotations(pod).Some? && ReadAs(pod, namespace, server, seen)
    ensures Patch(request, server.webhook, seen) == Patch(request, server.webhook, pod)
  {
    hide Patch, Annotated;
    if !Silent(pod, "dynamic-config.rs/class") {
      var name :| Annotated(pod, "dynamic-config.rs/class", name) && Usable(server, namespace, name) &&
                  seen == WithAnnotations(pod, Says(server.resolve(namespace, name).value) + Annotations(pod).value);
      SamePatch(request, server.webhook, pod, Says(server.resolve(namespace, name).value) + Annotations(pod).value);
    }
  }

  lemma WasAnnotated(pod: Json, namespace: string, server: Server, seen: Json)
    requires ReadAs(pod, namespace, server, seen) && Annotated(seen, "dynamic-config.rs/inject", "true")
    ensures Annotations(pod).Some?
  {
  }

  lemma StillSilent(pod: Json, seen: Json, key: string)
    requires forall text :: Annotated(seen, key, text) <==> Annotated(pod, key, text)
    ensures Silent(seen, key) <==> Silent(pod, key)
  {
    if !Silent(seen, key) {
      assert Annotated(seen, key, Annotations(seen).value[key].text);
    }
    if !Silent(pod, key) {
      assert Annotated(pod, key, Annotations(pod).value[key].text);
    }
  }

  lemma PatchedGranted(pod: Json, namespace: string, server: Server)
    requires Admit(pod, namespace, server).Patched?
    ensures exists seen, request :: Granted(pod, namespace, server, seen, request)
  {
    hide Patch, PodNames, Looked, EnvAccepted, Collides, WithClass, Silent, Annotated, ReadAs, Text, AlreadyInjected;
    var seen := WithClass(pod, namespace, server).value.GetOr(pod);
    var request := OfPod(seen, server).value.value;
    NotMarked(pod, namespace, server);
    hide OfPod;
    ReadExactly(pod, namespace, server, seen);
    ReadKeeps(pod, namespace, server, seen);
    StillSilent(pod, seen, "dynamic-config.rs/status");
    DecidedExactly(seen, server);
    NothingTaken(request, FieldsAt(pod, "spec"));
    assert Granted(pod, namespace, server, seen, request);
  }

  /** A mark of any kind, and no annotations at all, keep a pod from being patched. */
  lemma NotMarked(pod: Json, namespace: string, server: Server)
    requires Admit(pod, namespace, server).Patched?
    ensures Annotations(pod).Some? && Silent(pod, "dynamic-config.rs/status")
  {
    hide Patch, Collides, EnvAccepted, AlreadyInjected;
    if Annotations(pod).Some? {
      var annotations := Annotations(pod).value;
      SilentText(pod, STATUS);
      if Text(annotations, STATUS).Some? && WithClass(pod, namespace, server).value.Some? {
        var found := server.resolve(namespace, Text(annotations, PREFIX + "class").value).value;
        ClassOnlyFills(annotations, found, STATUS);
      }
    }
  }

  /** An unmarked pod is allowed as it is exactly when it says nothing of `inject`, or
      `"false"`, and its class, if it names one, may be used from here. Whatever is neither
      patched nor allowed is refused. */
  lemma AllowedExactly(pod: Json, namespace: string, server: Server)
    requires Annotations(pod).Some? && Silent(pod, "dynamic-config.rs/status")
    ensures Admit(pod, namespace, server) == Allowed <==>
              && (Silent(pod, "dynamic-config.rs/inject") || Annotated(pod, "dynamic-config.rs/inject", "false"))
              && (forall name :: Annotated(pod, "dynamic-config.rs/class", name) ==> Usable(server, namespace, name))
  {
    hide Patch, Collides, EnvAccepted, WithClass, OfPod, Usable, Silent, Annotated;
    ClassExactly(pod, namespace, server);
    if WithClass(pod, namespace, server).Ok? {
      var seen := WithClass(pod, namespace, server).value.GetOr(pod);
      ReadExactly(pod, namespace, server, seen);
      ReadKeeps(pod, namespace, server, seen);
      StillSilent(pod, seen, "dynamic-config.rs/status");
      StillSilent(pod, seen, "dynamic-config.rs/inject");
      DecidedExactly(seen, server);
    }
  }

  lemma ClassExactly(pod: Json, namespace: string, server: Server)
    requires Annotations(pod).Some? && Silent(pod, "dynamic-config.rs/status")
    ensures WithClass(pod, namespace, server).Ok? <==>
              forall name :: Annotated(pod, "dynamic-config.rs/class", name) ==> Usable(server, namespace, name)
  {
    assert PREFIX + "class" == "dynamic-config.rs/class" && STATUS == "dynamic-config.rs/status";
    hide Text, Filled, Annotated, Silent, WithAnnotations;
    SilentText(pod, "dynamic-config.rs/status");
    SilentText(pod, "dynamic-config.rs/class");
  }

  /** A pod with no annotations is allowed as it is; one whose mark is not this webhook's is
      refused; one with the mark is allowed exactly when it has a container of one of the
      agent's two names, and refused otherwise. */
  lemma MarksDecide(pod: Json, namespace: string, server: Server)
    ensures Annotations(pod).None? ==> Admit(pod, namespace, server) == Allowed
    ensures forall text :: Annotated(pod, "dynamic-config.rs/status", text) && text != "injected" ==>
              Admit(pod, namespace, server) == Refused
    ensures Annotated(pod, "dynamic-config.rs/status", "injected") ==>
              Admit(pod, namespace, server) ==
                if "dynamic-config-agent" in PodNames(FieldsAt(pod, "spec")) ||
                   "dynamic-config-init" in PodNames(FieldsAt(pod, "spec")) then Allowed else Refused
  {
    hide Patch, Collides, EnvAccepted, PodNames, AlreadyInjected, Annotated, Text, Filled, Marked, WithClass, OfPod;
    if Annotations(pod).Some? {
      assert STATUS == "dynamic-config.rs/status" && INJECTED == "injected";
      CarriesExactly(pod);
      SilentText(pod, "dynamic-config.rs/status");
      if Annotated(pod, "dynamic-config.rs/status", "injected") {
        IsMarked(pod);
        MarkedExactly(pod, namespace, server);
      } else {
        ForeignMark(pod, namespace, server);
      }
    } else {
      NoAnnotations(pod, namespace, server);
    }
  }

  lemma NoAnnotations(pod: Json, namespace: string, server: Server)
    requires Annotations(pod).None?
    ensures Admit(pod, namespace, server) == Allowed
    ensures forall key, text :: !Annotated(pod, key, text)
  {
    hide Patch, Collides, EnvAccepted, AlreadyInjected;
  }

  lemma IsMarked(pod: Json)
    requires Annotations(pod).Some? && Text(Annotations(pod).value, STATUS) == Some(INJECTED)
    ensures Marked(pod)
  {
  }

  lemma ForeignMark(pod: Json, namespace: string, server: Server)
    requires Annotations(pod).Some? && Text(Annotations(pod).value, STATUS) != Some(INJECTED)
    ensures Text(Annotations(pod).value, STATUS).Some? ==> Admit(pod, namespace, server) == Refused
  {
    hide Patch, Collides, EnvAccepted, AlreadyInjected, Filled;
    var annotations := Annotations(pod).value;
    if WithClass(pod, namespace, server).Ok? && WithClass(pod, namespace, server).value.Some? {
      ClassOnlyFills(annotations, server.resolve(namespace, Text(annotations, PREFIX + "class").value).value, STATUS);
    }
  }

  lemma CarriesExactly(pod: Json)
    ensures AlreadyInjected(pod) <==>
              "dynamic-config-agent" in PodNames(FieldsAt(pod, "spec")) ||
              "dynamic-config-init" in PodNames(FieldsAt(pod, "spec"))
  {
    var spec := FieldsAt(pod, "spec");
    SomeAgentNamed(ArrayAt(spec, "containers"));
    SomeAgentNamed(ArrayAt(spec, "initContainers"));
    hide SomeAgent, NamesIn;
  }

  lemma {:induction false} SomeAgentNamed(containers: seq<Json>)
    ensures SomeAgent(containers) <==>
              "dynamic-config-agent" in NamesIn(containers) || "dynamic-config-init" in NamesIn(containers)
    decreases |containers|
  {
    hide NameOf;
    if containers != [] {
      var before, last := containers[..|containers| - 1], containers[|containers| - 1];
      SomeAgentNamed(before);
      assert SomeAgent(containers) <==> SomeAgent(before) || IsAgent(last) by {
        if k :| 0 <= k < |containers| && IsAgent(containers[k]) {
          assert k < |before| ==> IsAgent(before[k]);
        }
        if k :| 0 <= k < |before| && IsAgent(before[k]) {
          assert IsAgent(containers[k]);
        }
      }
    }
  }

  // ----- a second admission ---------------------------------------------------------

  predicate Marked(pod: Json) {
    Annotations(pod).Some? && Text(Annotations(pod).value, STATUS) == Some(INJECTED)
  }

  /** A marked pod is never patched: it is allowed as it is exactly when it carries the agent,
      and refused otherwise, whatever the installation, its classes and the contract say. */
  lemma MarkedExactly(pod: Json, namespace: string, server: Server)
    requires Marked(pod)
    ensures Admit(pod, namespace, server) == if AlreadyInjected(pod) then Allowed else Refused
  {
    hide AlreadyInjected, Patch;
  }

  lemma InjectedMarked(request: Request, webhook: Webhook, pod: Json)
    requires PodOk(request, pod)
    ensures Marked(Injected(request, webhook, pod))
  {
    hide InjectedSpec, SpecOk;
  }

  lemma AgentIsAgent(request: Request, webhook: Webhook, watch: bool)
    ensures IsAgent(Agent(request, webhook, watch))
  {
    hide Container, CommandLine, AgentMounts;
    ContainerNamed(AgentName(watch), CommandLine(Items(request, watch)), AgentMounts(request), webhook.looks(watch));
  }

  lemma InjectedCarries(request: Request, webhook: Webhook, pod: Json)
    requires PodOk(request, pod)
    ensures AlreadyInjected(Injected(request, webhook, pod))
  {
    SpecAt(request, webhook, pod);
    var spec := pod.fields["spec"].fields;
    hide InjectedSpec, SpecOk, Injected, SomeAgent, InjectedContainers, Sidecars, InitsBefore, InitsAfter;
    ListsAfter(request, webhook, spec);
    if TouchesInits(request) {
      InitsCarry(request, webhook, ArrayAt(spec, "initContainers"));
    } else {
      SidecarsCarry(request, webhook, InjectedContainers(request, Containers(spec)));
    }
  }

  lemma SpecAt(request: Request, webhook: Webhook, pod: Json)
    requires PodOk(request, pod)
    ensures FieldsAt(Injected(request, webhook, pod), "spec") == InjectedSpec(request, webhook, pod.fields["spec"].fields)
  {
    hide InjectedSpec, MarkedMetadata, SpecOk;
  }

  lemma InitsCarry(request: Request, webhook: Webhook, inits: seq<Json>)
    requires TouchesInits(request)
    ensures SomeAgent(InitsBefore(request, webhook) + inits + InitsAfter(request, webhook))
  {
    hide Agent, ExtraAgents, Always, IsAgent;
    var list := InitsBefore(request, webhook) + inits + InitsAfter(request, webhook);
    if HasInit(request.mode) {
      AgentIsAgent(request, webhook, false);
      assert list[if request.initFirst then 0 else |inits|] == Agent(request, webhook, false);
    } else {
      AlwaysIsAgent(request, webhook);
      var natives := Always(Agents(request, webhook, true));
      assert InitsAfter(request, webhook) == [] + natives == natives;
      assert list[|inits|] == natives[0];
    }
  }

  lemma SidecarsCarry(request: Request, webhook: Webhook, containers: seq<Json>)
    requires !TouchesInits(request)
    ensures SomeAgent(containers + Sidecars(request, webhook))
  {
    hide Agent, ExtraAgents, IsAgent;
    AgentIsAgent(request, webhook, true);
    assert Sidecars(request, webhook)[0] == Agent(request, webhook, true);
    assert (containers + Sidecars(request, webhook))[|containers|] == Agent(request, webhook, true);
  }

  lemma AlwaysIsAgent(request: Request, webhook: Webhook)
    ensures |Always(Agents(request, webhook, true))| > 0 && IsAgent(Always(Agents(request, webhook, true))[0])
  {
    hide Agent, ExtraAgents;
    AgentIsAgent(request, webhook, true);
  }

  /** Applying what one admission answered makes the injected pod, and admitting that again,
      under any installation, any classes and any namespace, is allowed with no patch: for
      every pod the API server would send, its container names being unique. */
  lemma ReadmissionIsNoOp(pod: Json, namespace: string, server: Server, again: string, other: Server)
    requires Admit(pod, namespace, server).Patched?
    requires PodShape(pod) && Unique(NamesIn(Containers(FieldsAt(pod, "spec"))))
    ensures var applied := Run(pod, Admit(pod, namespace, server).ops);
            && applied.Ok? && Marked(applied.value) && AlreadyInjected(applied.value)
            && Admit(applied.value, again, other) == Allowed
  {
    var filled := WithClass(pod, namespace, server).value.GetOr(pod);
    var request := OfPod(filled, server).value.value;
    assert Asked(request, pod, namespace, server);
    AdmittedPatch(pod, namespace, server, request);
    AcceptedOk(request, pod);
    hide Admit, Patch, Injected, PodOk, Marked, AlreadyInjected, Asked, Run;
    PatchInjects(request, server.webhook, pod);
    InjectedMarked(request, server.webhook, pod);
    InjectedCarries(request, server.webhook, pod);
    MarkedExactly(Injected(request, server.webhook, pod), again, other);
  }

  /** The check on the wrapped container is what the patch needs of it. */
  lemma AcceptedOk(request: Request, pod: Json)
    requires PodShape(pod) && Unique(NamesIn(Containers(FieldsAt(pod, "spec"))))
    requires EnvAccepted(request, Containers(FieldsAt(pod, "spec")))
    ensures PodOk(request, pod)
  {
    var containers := Containers(FieldsAt(pod, "spec"));
    assert containers == pod.fields["spec"].fields["containers"].items;
    hide EnvAccepted, Wrapped, Unique, NamesIn, Containers, Wrappable;
    forall k | 0 <= k < |containers| ensures containers[k].Object? && ContainerOk(request, containers[k]) {
      if Wrapped(request, containers[k]) {
        WrappedIsWrappable(request, containers, k);
      }
    }
  }

  /** The request this admission resolves. */
  predicate Asked(request: Request, pod: Json, namespace: string, server: Server) {
    && WithClass(pod, namespace, server).Ok?
    && OfPod(WithClass(pod, namespace, server).value.GetOr(pod), server) == Ok(Some(request))
  }

  lemma AdmittedPatch(pod: Json, namespace: string, server: Server, request: Request)
    requires Admit(pod, namespace, server).Patched? && Asked(request, pod, namespace, server)
    ensures Admit(pod, namespace, server).ops == Patch(request, server.webhook, pod)
    ensures Collides(request, FieldsAt(pod, "spec")).None?
    ensures EnvAccepted(request, Containers(FieldsAt(pod, "spec")))
  {
    hide Patch, Collides, Filled, EnvAccepted, AlreadyInjected;
    var filled := WithClass(pod, namespace, server).value;
    if filled.Some? {
      var annotations := Annotations(pod).value;
      var name := Text(annotations, PREFIX + "class").value;
      SamePatch(request, server.webhook, pod, Filled(annotations, server.resolve(namespace, name).value));
    }
  }
}
