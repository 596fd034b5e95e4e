/** The container names an injection takes, and the check that the pod has none of them. */
module Collisions {
  import opened Wrappers
  import opened Text
  import opened Contract
  import opened JsonPatch
  import opened PodPatch

  function NamesIn(containers: seq<Json>): seq<string>
    decreases |containers|
  {
    if containers == [] then []
    else
      NamesIn(containers[..|containers| - 1]) +
      match NameOf(containers[|containers| - 1]) { case Some(name) => [name] case None => [] }
  }

  /** The names in a pod spec, over both of its lists. */
  function PodNames(spec: map<string, Json>): seq<string> {
    NamesIn(ArrayAt(spec, "containers")) + NamesIn(ArrayAt(spec, "initContainers"))
  }

  function IndexedNames(request: Request, n: nat): seq<string> {
    (if HasAgent(request.mode) then [AgentName(true) + "-" + Decimal(n)] else [])
    + (if HasInit(request.mode) then [AgentName(false) + "-" + Decimal(n)] else [])
  }

  /** The names `collides` looks for: the named renders by their number. */
  function Wanted(request: Request, count: nat): seq<string> {
    if count == 0 then
      (if HasAgent(request.mode) then [AgentName(true)] else [])
      + (if HasInit(request.mode) then [AgentName(false)] else [])
    else Wanted(request, count - 1) + IndexedNames(request, count)
  }

  /** A name that is looked for: an agent's, bare or with a number up to the renders'. */
  ghost predicate Looked(request: Request, count: nat, name: string) {
    || ((request.mode.Sidecar? || request.mode.Both?) &&
        (name == "dynamic-config-agent" ||
         exists n: nat :: 1 <= n <= count && name == "dynamic-config-agent-" + Decimal(n)))
    || ((request.mode.Init? || request.mode.Both?) &&
        (name == "dynamic-config-init" ||
         exists n: nat :: 1 <= n <= count && name == "dynamic-config-init-" + Decimal(n)))
  }

  lemma {:induction false} WantedExactly(request: Request, count: nat, name: string)
    ensures name in Wanted(request, count) <==> Looked(request, count, name)
  {
    hide Decimal;
    if count > 0 {
      WantedExactly(request, count - 1, name);
      assert AgentName(true) + "-" + Decimal(count) == "dynamic-config-agent-" + Decimal(count);
      assert AgentName(false) + "-" + Decimal(count) == "dynamic-config-init-" + Decimal(count);
      assert Wanted(request, count) == Wanted(request, count - 1) + IndexedNames(request, count);
    }
  }

  function FirstIn(names: seq<string>, wanted: seq<string>): Option<string> {
    if names == [] then None
    else if names[0] in wanted then Some(names[0])
    else FirstIn(names[1..], wanted)
  }

  function Collides(request: Request, spec: map<string, Json>): Option<string> {
    FirstIn(PodNames(spec), Wanted(request, |request.extra|))
  }

  /** `collides`. */
  method FindCollision(request: Request, spec: map<string, Json>) returns (taken: Option<string>)
    ensures taken == Collides(request, spec)
  {
    hide NamesIn, Decimal;
    var wanted := Wanted(request, 0);
    for index := 0 to |request.extra|
      invariant wanted == Wanted(request, index)
    {
      wanted := wanted + IndexedNames(request, index + 1);
    }
    var first := FindIn(ArrayAt(spec, "containers"), wanted);
    FirstInJoin(NamesIn(ArrayAt(spec, "containers")), NamesIn(ArrayAt(spec, "initContainers")), wanted);
    if first.Some? {
      return first;
    }
    taken := FindIn(ArrayAt(spec, "initContainers"), wanted);
  }

  method FindIn(containers: seq<Json>, wanted: seq<string>) returns (taken: Option<string>)
    ensures taken == FirstIn(NamesIn(containers), wanted)
  {
    hide NameOf;
    for k := 0 to |containers|
      invariant FirstIn(NamesIn(containers[..k]), wanted).None?
    {
      assert containers[..k + 1][..k] == containers[..k];
      var name := NameOf(containers[k]);
      if name.Some? {
        FirstInJoin(NamesIn(containers[..k]), [name.value], wanted);
        if name.value in wanted {
          FoundEarly(containers, k, wanted);
          return name;
        }
      } else {
        assert NamesIn(containers[..k]) + [] == NamesIn(containers[..k]);
      }
    }
    assert containers[..|containers|] == containers;
    taken := None;
  }

  lemma {:induction false} FirstInJoin(a: seq<string>, b: seq<string>, wanted: seq<string>)
    ensures FirstIn(a + b, wanted) == Either(FirstIn(a, wanted), FirstIn(b, wanted))
  {
    if a == [] {
      assert a + b == b;
    } else {
      assert (a + b)[1..] == a[1..] + b;
      FirstInJoin(a[1..], b, wanted);
    }
  }

  lemma {:induction false} FoundEarly(containers: seq<Json>, k: nat, wanted: seq<string>)
    requires k < |containers| && FirstIn(NamesIn(containers[..k + 1]), wanted).Some?
    ensures FirstIn(NamesIn(containers), wanted) == FirstIn(NamesIn(containers[..k + 1]), wanted)
    decreases |containers|
  {
    hide NameOf;
    if k == |containers| - 1 {
      assert containers[..k + 1] == containers;
    } else {
      var before := containers[..|containers| - 1];
      assert before[..k + 1] == containers[..k + 1];
      FoundEarly(before, k, wanted);
      var last := match NameOf(containers[|containers| - 1]) { case Some(name) => [name] case None => [] };
      FirstInJoin(NamesIn(before), last, wanted);
    }
  }

  lemma {:induction false} FirstInExactly(names: seq<string>, wanted: seq<string>)
    ensures FirstIn(names, wanted).None? <==> forall k :: 0 <= k < |names| ==> names[k] !in wanted
  {
    if names != [] {
      FirstInExactly(names[1..], wanted);
    }
  }

  // ----- the names an injection really takes ----------------------------------------

  function ExtraNames(extra: seq<Extra>, watch: bool): (names: seq<string>)
    ensures |names| == |extra|
    ensures forall k :: 0 <= k < |extra| ==> names[k] == AgentName(watch) + "-" + extra[k].name
  {
    if extra == [] then [] else [AgentName(watch) + "-" + extra[0].name] + ExtraNames(extra[1..], watch)
  }

  function AgentNames(request: Request, watch: bool): seq<string> {
    [AgentName(watch)] + ExtraNames(request.extra, watch)
  }

  /** The containers added, by name: the named renders by their own. */
  function Added(request: Request): seq<string> {
    (if HasAgent(request.mode) then AgentNames(request, true) else [])
    + (if HasInit(request.mode) then AgentNames(request, false) else [])
  }

  ghost predicate Unique(names: seq<string>) {
    forall j, k :: 0 <= j < k < |names| ==> names[j] != names[k]
  }

  predicate Disjoint(a: seq<string>, b: seq<string>) {
    forall k :: 0 <= k < |a| ==> a[k] !in b
  }

  lemma UniqueJoin(a: seq<string>, b: seq<string>)
    ensures Unique(a + b) <==> Unique(a) && Unique(b) && Disjoint(a, b)
  {
    var c := a + b;
    if Unique(c) {
      forall j, k | 0 <= j < k < |a| ensures a[j] != a[k] {
        assert c[j] != c[k];
      }
      forall j, k | 0 <= j < k < |b| ensures b[j] != b[k] {
        assert c[|a| + j] != c[|a| + k];
      }
      forall j | 0 <= j < |a| ensures a[j] !in b {
        assert c[j] == a[j] && forall k :: 0 <= k < |b| ==> b[k] == c[|a| + k];
      }
    }
  }

  ghost predicate Counted(names: seq<string>) {
    forall name :: multiset(names)[name] <= 1
  }

  lemma {:induction false} UniqueCounted(names: seq<string>)
    ensures Unique(names) <==> Counted(names)
  {
    if names != [] {
      var first, rest := [names[0]], names[1..];
      assert names == first + rest;
      UniqueJoin(first, rest);
      UniqueCounted(rest);
      assert multiset(names) == multiset(first) + multiset(rest);
      assert forall name :: name in rest <==> multiset(rest)[name] > 0;
      if Counted(names) {
        forall name ensures multiset(rest)[name] <= 1 {
          assert multiset(names)[name] <= 1;
        }
        assert multiset(names)[names[0]] <= 1;
      }
    }
  }

  lemma {:induction false} NamesJoin(a: seq<Json>, b: seq<Json>)
    ensures NamesIn(a + b) == NamesIn(a) + NamesIn(b)
    decreases |b|
  {
    hide NameOf;
    if b == [] {
      assert a + b == a;
    } else {
      var n := |b| - 1;
      assert (a + b)[..|a + b| - 1] == a + b[..n] && (a + b)[|a + b| - 1] == b[n];
      NamesJoin(a, b[..n]);
    }
  }

  lemma {:induction false} SameNames(a: seq<Json>, b: seq<Json>)
    requires |a| == |b| && forall k :: 0 <= k < |a| ==> NameOf(a[k]) == NameOf(b[k])
    ensures NamesIn(a) == NamesIn(b)
    decreases |a|
  {
    hide NameOf;
    if a != [] {
      SameNames(a[..|a| - 1], b[..|b| - 1]);
    }
  }

  lemma {:induction false} AlwaysSameNames(containers: seq<Json>)
    ensures |Always(containers)| == |containers|
    ensures forall k :: 0 <= k < |containers| ==> NameOf(Always(containers)[k]) == NameOf(containers[k])
  {
    if containers != [] {
      AlwaysSameNames(containers[1..]);
    }
  }

  lemma OneName(container: Json)
    requires NameOf(container).Some?
    ensures NamesIn([container]) == [NameOf(container).value]
  {
    hide NameOf;
    assert [container][..0] == [];
  }

  lemma {:induction false} ExtraAgentNames(request: Request, webhook: Webhook, extra: seq<Extra>, watch: bool)
    ensures NamesIn(ExtraAgents(request, webhook, extra, watch)) == ExtraNames(extra, watch)
    decreases |extra|
  {
    hide Container, CommandLine, ExtraMounts;
    if extra != [] {
      var first, rest := ExtraAgent(request, webhook, extra[0], watch), ExtraAgents(request, webhook, extra[1..], watch);
      ContainerNamed(AgentName(watch) + "-" + extra[0].name, CommandLine(ExtraItems(extra[0], watch)),
                     ExtraMounts(request, extra[0]), webhook.extraLooks(extra[0], watch));
      OneName(first);
      ExtraAgentNames(request, webhook, extra[1..], watch);
      NamesJoin([first], rest);
    }
  }

  lemma ContainerNamed(name: string, arguments: seq<string>, mounts: seq<Json>, looks: map<string, Json>)
    ensures NameOf(Container(name, arguments, mounts, looks)) == Some(name)
  {
  }

  lemma AgentsNamed(request: Request, webhook: Webhook, watch: bool)
    ensures NamesIn([Agent(request, webhook, watch)]) == [AgentName(watch)]
    ensures NamesIn(ExtraAgents(request, webhook, request.extra, watch)) == ExtraNames(request.extra, watch)
    ensures NamesIn(Agents(request, webhook, watch)) == AgentNames(request, watch)
    ensures NamesIn(Always(Agents(request, webhook, watch))) == AgentNames(request, watch)
  {
    hide Container, CommandLine, AgentMounts, ExtraAgents, NamesIn, Always, NameOf;
    var first := Agent(request, webhook, watch);
    ContainerNamed(AgentName(watch), CommandLine(Items(request, watch)), AgentMounts(request), webhook.looks(watch));
    OneName(first);
    ExtraAgentNames(request, webhook, request.extra, watch);
    NamesJoin([first], ExtraAgents(request, webhook, request.extra, watch));
    AlwaysSameNames(Agents(request, webhook, watch));
    SameNames(Always(Agents(request, webhook, watch)), Agents(request, webhook, watch));
  }

  /** The names after the injection are the pod's and the added ones, each as often. */
  lemma NamesAfter(request: Request, webhook: Webhook, spec: map<string, Json>)
    requires SpecOk(request, spec)
    ensures multiset(PodNames(InjectedSpec(request, webhook, spec))) ==
              multiset(PodNames(spec)) + multiset(Added(request))
  {
    hide NamesIn, InjectedSpec, SpecOk, Agents, Agent, ExtraAgents, AgentNames, Always;
    ListsAfter(request, webhook, spec);
    ContainersPresent(request, spec);
    var containers, inits := Containers(spec), ArrayAt(spec, "initContainers");
    ContainerNamesKept(request, containers);
    NamesJoin(InjectedContainers(request, containers), Sidecars(request, webhook));
    AgentsNamed(request, webhook, true);
    AgentsNamed(request, webhook, false);
    InitNames(request, webhook, inits);
    NoNames();
  }

  lemma NoNames()
    ensures NamesIn([]) == []
  {
  }

  lemma ContainerNamesKept(request: Request, containers: seq<Json>)
    requires forall k :: 0 <= k < |containers| ==> containers[k].Object?
    ensures NamesIn(InjectedContainers(request, containers)) == NamesIn(containers)
  {
    hide NamesIn, NameOf, InjectedContainer;
    var out := InjectedContainers(request, containers);
    forall k | 0 <= k < |containers| ensures NameOf(out[k]) == NameOf(containers[k]) {
      InjectedKept(request, containers[k]);
    }
    SameNames(out, containers);
  }

  /** The two lists of the injected spec. */
  lemma ListsAfter(request: Request, webhook: Webhook, spec: map<string, Json>)
    requires SpecOk(request, spec)
    ensures forall k :: 0 <= k < |Containers(spec)| ==> Containers(spec)[k].Object?
    ensures var out := InjectedSpec(request, webhook, spec);
            && ArrayAt(out, "containers") == InjectedContainers(request, Containers(spec)) + Sidecars(request, webhook)
            && ArrayAt(out, "initContainers") ==
                 InitsBefore(request, webhook) + ArrayAt(spec, "initContainers") + InitsAfter(request, webhook)
  {
    hide ContainersOk, InjectedContainers, Sidecars, Volumes, PullSecrets, Agent, ExtraAgents, Agents, Always;
    ContainersPresent(request, spec);
    if !TouchesInits(request) {
      assert InitsBefore(request, webhook) == [] && InitsAfter(request, webhook) == [];
      assert [] + ArrayAt(spec, "initContainers") + [] == ArrayAt(spec, "initContainers");
    }
  }

  lemma InitNames(request: Request, webhook: Webhook, inits: seq<Json>)
    ensures multiset(NamesIn(InitsBefore(request, webhook) + inits + InitsAfter(request, webhook))) ==
              multiset(NamesIn(inits))
              + multiset(if HasInit(request.mode) then AgentNames(request, false) else [])
              + multiset(if HasAgent(request.mode) && request.nativeSidecar then AgentNames(request, true) else [])
  {
    hide NamesIn, Agents, Agent, ExtraAgents, ExtraNames, Always;
    var before, after := InitsBefore(request, webhook), InitsAfter(request, webhook);
    NamesJoin(before + inits, after);
    NamesJoin(before, inits);
    NoNames();
    AgentsNamed(request, webhook, true);
    AgentsNamed(request, webhook, false);
    OnceNames(request, webhook);
    var natives := if HasAgent(request.mode) && request.nativeSidecar then Always(Agents(request, webhook, true)) else [];
    NamesJoin(OnceAfter(request, webhook), natives);
  }

  /** The agents that run once and follow the pod's init containers. */
  function OnceAfter(request: Request, webhook: Webhook): seq<Json> {
    if HasInit(request.mode) then
      (if request.initFirst then [] else [Agent(request, webhook, false)])
      + ExtraAgents(request, webhook, request.extra, false)
    else []
  }

  lemma OnceNames(request: Request, webhook: Webhook)
    ensures multiset(NamesIn(InitsBefore(request, webhook))) + multiset(NamesIn(OnceAfter(request, webhook))) ==
              multiset(if HasInit(request.mode) then AgentNames(request, false) else [])
  {
    hide NamesIn, Agents, Agent, ExtraAgents, ExtraNames, Always;
    NoNames();
    AgentsNamed(request, webhook, false);
    var agent, extras := [Agent(request, webhook, false)], ExtraAgents(request, webhook, request.extra, false);
    NamesJoin(agent, extras);
    assert [] + extras == extras;
  }

  // ----- unique after the injection, exactly when -----------------------------------

  predicate DistinctRenders(extra: seq<Extra>) {
    forall j, k :: 0 <= j < k < |extra| ==> extra[j].name != extra[k].name
  }

  lemma SuffixDiffers(watch: bool, a: string, b: string)
    requires a != b
    ensures AgentName(watch) + "-" + a != AgentName(watch) + "-" + b
  {
    var x, y := AgentName(watch) + "-" + a, AgentName(watch) + "-" + b;
    var n := |AgentName(watch)| + 1;
    assert x[n..] == a && y[n..] == b;
  }

  lemma AgentNamesUnique(request: Request, watch: bool)
    requires DistinctRenders(request.extra)
    ensures Unique(AgentNames(request, watch))
  {
    hide AgentName;
    var names, extras := AgentNames(request, watch), ExtraNames(request.extra, watch);
    forall j, k | 0 <= j < k < |extras| ensures extras[j] != extras[k] {
      SuffixDiffers(watch, request.extra[j].name, request.extra[k].name);
    }
    forall k | 0 <= k < |extras| ensures extras[k] != AgentName(watch) {
      assert |extras[k]| > |AgentName(watch)|;
    }
    UniqueJoin([AgentName(watch)], extras);
  }

  /** Every name of an agent that stays begins one way, and of one that runs once another. */
  lemma AgentNamesStart(request: Request, watch: bool, k: nat)
    requires k < |AgentNames(request, watch)|
    ensures var name := AgentNames(request, watch)[k]; |name| > 15 && name[15] == if watch then 'a' else 'i'
  {
    var name := AgentNames(request, watch)[k];
    assert |AgentName(watch)| > 15 && AgentName(watch)[15] == if watch then 'a' else 'i';
    hide AgentName;
    assert AgentName(watch) <= name;
  }

  lemma AddedUnique(request: Request)
    requires DistinctRenders(request.extra)
    ensures Unique(Added(request))
  {
    hide AgentNames, DistinctRenders;
    AgentNamesUnique(request, true);
    AgentNamesUnique(request, false);
    var stays, once := AgentNames(request, true), AgentNames(request, false);
    forall k | 0 <= k < |stays| ensures stays[k] !in once {
      AgentNamesStart(request, true, k);
      if stays[k] in once {
        var j :| 0 <= j < |once| && once[j] == stays[k];
        AgentNamesStart(request, false, j);
      }
    }
    UniqueJoin(if HasAgent(request.mode) then stays else [], if HasInit(request.mode) then once else []);
  }

  /** No container of the pod has the name of a named render's agent. */
  predicate SuffixesFree(request: Request, names: seq<string>) {
    && (HasAgent(request.mode) ==> Disjoint(ExtraNames(request.extra, true), names))
    && (HasInit(request.mode) ==> Disjoint(ExtraNames(request.extra, false), names))
  }

  lemma {:induction false} WantsMain(request: Request, count: nat)
    ensures HasAgent(request.mode) ==> AgentName(true) in Wanted(request, count)
    ensures HasInit(request.mode) ==> AgentName(false) in Wanted(request, count)
  {
    hide AgentName, Decimal;
    if count > 0 {
      WantsMain(request, count - 1);
    } else if HasAgent(request.mode) {
      assert Wanted(request, 0)[0] == AgentName(true);
    }
  }

  lemma AddedFree(request: Request, names: seq<string>)
    requires FirstIn(names, Wanted(request, |request.extra|)).None?
    ensures Disjoint(names, Added(request)) <==> SuffixesFree(request, names)
  {
    hide AgentName, Wanted, ExtraNames;
    FirstInExactly(names, Wanted(request, |request.extra|));
    WantsMain(request, |request.extra|);
    var stays := ExtraNames(request.extra, true);
    var once := ExtraNames(request.extra, false);
  }

  /** For a pod that passes the check, the names stay unique exactly when no container of
      its own is called as a named render's agent is: the check looks for numbers there. */
  lemma NamesUniqueExactly(request: Request, webhook: Webhook, spec: map<string, Json>)
    requires SpecOk(request, spec) && Unique(PodNames(spec)) && DistinctRenders(request.extra)
    requires Collides(request, spec).None?
    ensures Unique(PodNames(InjectedSpec(request, webhook, spec))) <==> SuffixesFree(request, PodNames(spec))
  {
    hide SpecOk, InjectedSpec, PodNames, Added, Wanted, DistinctRenders, SuffixesFree, Unique;
    var names, added := PodNames(spec), Added(request);
    NamesAfter(request, webhook, spec);
    AddedUnique(request);
    AddedFree(request, names);
    UniqueJoin(names, added);
    UniqueCounted(names + added);
    UniqueCounted(PodNames(InjectedSpec(request, webhook, spec)));
    assert multiset(names + added) == multiset(names) + multiset(added);
  }

  // ----- the container to wrap ------------------------------------------------------

  function FirstNamed(containers: seq<Json>, name: Option<string>): Option<Json> {
    if containers == [] then None
    else if NameOf(containers[0]) == name then Some(containers[0])
    else FirstNamed(containers[1..], name)
  }

  /** What a container must be for its command to be wrapped. */
  predicate Wrappable(request: Request, container: Json) {
    && container.Object? && ArrayAt(container.fields, "command") != []
    && (request.envRestart ==> "livenessProbe" !in container.fields)
  }

  /** The check on `env-inject`, which looks at the first container of that name. */
  predicate EnvAccepted(request: Request, containers: seq<Json>) {
    request.envInject.Some? ==>
      FirstNamed(containers, request.envInject).Some? &&
      Wrappable(request, FirstNamed(containers, request.envInject).value)
  }

  lemma {:induction false} NameListed(containers: seq<Json>, k: nat)
    requires k < |containers| && NameOf(containers[k]).Some?
    ensures NameOf(containers[k]).value in NamesIn(containers)
    decreases |containers|
  {
    hide NameOf;
    if k < |containers| - 1 {
      NameListed(containers[..|containers| - 1], k);
    }
  }

  lemma {:induction false} OneOfEachName(containers: seq<Json>, k: nat)
    requires Unique(NamesIn(containers)) && k < |containers| && NameOf(containers[k]).Some?
    ensures FirstNamed(containers, NameOf(containers[k])) == Some(containers[k])
    decreases |containers|
  {
    hide NameOf, Unique;
    var first, rest := [containers[0]], containers[1..];
    assert containers == first + rest;
    NamesJoin(first, rest);
    UniqueJoin(NamesIn(first), NamesIn(rest));
    if k > 0 {
      NameListed(rest, k - 1);
      if NameOf(containers[0]).Some? {
        OneName(containers[0]);
        assert NamesIn(first)[0] == NameOf(containers[0]).value;
      }
      OneOfEachName(rest, k - 1);
    }
  }

  /** So when names are unique, every container the patch wraps has a command to replace and,
      for a restart, no probe to lose. */
  lemma WrappedIsWrappable(request: Request, containers: seq<Json>, k: nat)
    requires Unique(NamesIn(containers)) && EnvAccepted(request, containers)
    requires k < |containers| && Wrapped(request, containers[k])
    ensures Wrappable(request, containers[k]) && "command" in containers[k].fields
  {
    hide NameOf, Unique, NamesIn;
    OneOfEachName(containers, k);
  }

  /** The check looks at the first container of the name, which must have a command, and no
      liveness probe if the container is to restart when the file changes. */
  lemma EnvAcceptedExactly(request: Request, containers: seq<Json>)
    ensures EnvAccepted(request, containers) <==>
              request.envInject.None? ||
              exists k :: 0 <= k < |containers| && NameOf(containers[k]) == request.envInject &&
                (forall j :: 0 <= j < k ==> NameOf(containers[j]) != request.envInject) &&
                "command" in containers[k].fields && containers[k].fields["command"].Array? &&
                containers[k].fields["command"].items != [] &&
                (request.envRestart ==> "livenessProbe" !in containers[k].fields)
  {
    if request.envInject.Some? {
      FirstNamedExactly(containers, request.envInject);
    }
  }

  lemma {:induction false} FirstNamedExactly(containers: seq<Json>, name: Option<string>)
    requires name.Some?
    ensures forall container :: FirstNamed(containers, name) == Some(container) <==>
              exists k :: 0 <= k < |containers| && containers[k] == container && NameOf(container) == name &&
                          forall j :: 0 <= j < k ==> NameOf(containers[j]) != name
    ensures forall container :: NameOf(container) == name ==> container.Object?
  {
    if containers != [] {
      FirstNamedExactly(containers[1..], name);
      hide NameOf;
      forall container
        ensures FirstNamed(containers, name) == Some(container) <==>
                  exists k :: 0 <= k < |containers| && containers[k] == container && NameOf(container) == name &&
                              forall j :: 0 <= j < k ==> NameOf(containers[j]) != name
      {
        if NameOf(containers[0]) != name {
          if k :| 0 <= k < |containers[1..]| && containers[1..][k] == container && NameOf(container) == name &&
                  forall j :: 0 <= j < k ==> NameOf(containers[1..][j]) != name {
            assert containers[k + 1] == container;
            assert forall j :: 0 < j < k + 1 ==> containers[j] == containers[1..][j - 1];
          }
          if k :| 0 <= k < |containers| && containers[k] == container && NameOf(container) == name &&
                  forall j :: 0 <= j < k ==> NameOf(containers[j]) != name {
            assert containers[1..][k - 1] == container;
            assert forall j :: 0 <= j < k - 1 ==> containers[1..][j] == containers[j + 1];
          }
        }
      }
    }
  }

  // ----- the names that are not kept ------------------------------------------------

  function Render(name: string): Extra {
    Extra(name, "git", Some("https://git/x"), "k", "/c/b.json", 15, [], None, None, None, None, None)
  }

  function Sample(): Request {
    Request("vault", Some("https://vault:8200"), "app", "/c/a.json", "/c", Sidecar, 15, [], [], false, false, true, None,
            None, None, true, None, false, false, None, None, None, None, None, None, None, None, None, true, false,
            false, None, false, None, [Render("db")])
  }

  function SpecOf(name: string): map<string, Json> {
    map["containers" := Array([Object(map["name" := JsonPatch.Word(name)])])]
  }

  lemma SpecOfNames(name: string)
    ensures PodNames(SpecOf(name)) == [name] && SpecOk(Sample(), SpecOf(name))
  {
    var container := Object(map["name" := JsonPatch.Word(name)]);
    assert NameOf(container) == Some(name);
    OneName(container);
    NoNames();
    assert ArrayAt(SpecOf(name), "containers") == [container] && ArrayAt(SpecOf(name), "initContainers") == [];
    hide NamesIn;
  }

  lemma SampleWants()
    ensures Wanted(Sample(), 1) == ["dynamic-config-agent", "dynamic-config-agent-1"]
  {
    assert Decimal(1) == "1";
    var one := AgentName(true) + "-" + Decimal(1);
    assert one == "dynamic-config-agent-1";
    hide Decimal;
    assert IndexedNames(Sample(), 1) == [one];
    assert Wanted(Sample(), 0) == ["dynamic-config-agent"];
  }

  lemma SampleAdds()
    ensures Added(Sample()) == ["dynamic-config-agent", "dynamic-config-agent-db"]
    ensures ExtraNames(Sample().extra, true) == ["dynamic-config-agent-db"]
  {
    var one := AgentName(true) + "-" + "db";
    assert one == "dynamic-config-agent-db";
    assert Sample().extra[1..] == [];
    assert ExtraNames(Sample().extra, true) == [one];
  }

  lemma SampleChecked(name: string)
    requires name != "dynamic-config-agent"
    ensures Collides(Sample(), SpecOf(name)) == if name == "dynamic-config-agent-1" then Some(name) else None
  {
    SpecOfNames(name);
    SampleWants();
    hide Wanted, PodNames, SpecOf;
    assert |Sample().extra| == 1;
    FirstInExactly([name], Wanted(Sample(), 1));
    assert name == "dynamic-config-agent-1" ==> Wanted(Sample(), 1)[1] == name;
  }

  /** The claim that a pod which passes the check keeps its names unique fails, for a render
      called `db` and a container called as its agent will be. */
  lemma NamesNotKept(webhook: Webhook)
    ensures var spec := SpecOf("dynamic-config-agent-db");
            && SpecOk(Sample(), spec) && Unique(PodNames(spec)) && Collides(Sample(), spec).None?
            && !Unique(PodNames(InjectedSpec(Sample(), webhook, spec)))
  {
    var name := "dynamic-config-agent-db";
    var spec := SpecOf(name);
    assert |name| == 23 && |"dynamic-config-agent"| == 20 && |"dynamic-config-agent-1"| == 22;
    SpecOfNames(name);
    SampleChecked(name);
    SampleAdds();
    hide PodNames, SpecOk, InjectedSpec, SpecOf, Collides, ExtraNames;
    assert !Disjoint(ExtraNames(Sample().extra, true), [name]) by {
      assert ExtraNames(Sample().extra, true)[0] in [name];
    }
    NamesUniqueExactly(Sample(), webhook, spec);
  }

  /** And it refuses a pod whose names would have stayed unique. */
  lemma RefusedForNothing(webhook: Webhook)
    ensures var spec := SpecOf("dynamic-config-agent-1");
            && SpecOk(Sample(), spec) && Collides(Sample(), spec) == Some("dynamic-config-agent-1")
            && Unique(PodNames(InjectedSpec(Sample(), webhook, spec)))
  {
    var name := "dynamic-config-agent-1";
    var spec := SpecOf(name);
    assert |name| == 22 && |"dynamic-config-agent"| == 20 && |"dynamic-config-agent-db"| == 23;
    SpecOfNames(name);
    SampleChecked(name);
    SampleAdds();
    hide PodNames, SpecOk, InjectedSpec, SpecOf, Collides, Added;
    NamesAfter(Sample(), webhook, spec);
    var all := [name] + Added(Sample());
    UniqueCounted(all);
    UniqueCounted(PodNames(InjectedSpec(Sample(), webhook, spec)));
    assert multiset(all) == multiset([name]) + multiset(Added(Sample()));
  }
}
