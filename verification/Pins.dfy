/** An installation's defaults, and how a pod's annotations resolve against them: the store's
    tier, then the fleet's, then the built-in, and the pins that no annotation moves. */
module Pins {
  import opened Wrappers
  import opened Text
  import opened Grammar
  import Contract

  datatype Setting = Words(text: string) | Number(n: nat) | Switch(on: bool) | Run(mode: Contract.Mode)

  /** One tier: the knobs it sets, its own override mode, and the markers in the order they
      were met. */
  datatype Knobs = Knobs(values: map<string, Setting>, overridable: Option<bool>, rules: seq<(string, bool)>)

  datatype Installation = Installation(
    fleet: Knobs,
    perStore: seq<(string, Knobs)>,
    source: Option<string>,
    sourceRule: Option<bool>,
    overridable: bool)

  /** What resolution reads of a pod. */
  datatype Pod = Pod(annotations: map<string, string>, containerUid: Option<nat>, podUid: Option<nat>)
  {
    function Get(key: string): Option<string> {
      if key in annotations then Some(annotations[key]) else None
    }
  }


  /** The store-shaped strings that stand alone. */
  function PlainStrings(): seq<string> {
    ["key", "path", "token-secret", "password-secret", "ca-configmap", "tls-secret", "ssh-secret", "aws-secret",
     "section", "auth", "auth-mount", "auth-role", "auth-username", "auth-token-path", "namespace", "ref", "api-url"]
  }

  /** The halves that answer for each other. */
  function PairStrings(): seq<string> {
    ["endpoint", "endpoint-secret", "template", "template-configmap"]
  }

  function StoreStrings(): seq<string> {
    PairStrings() + PlainStrings()
  }

  function Quantities(): seq<string> {
    ["agent-cpu-request", "agent-memory-request", "agent-cpu-limit", "agent-memory-limit"]
  }

  function PodKnobs(): seq<string> {
    ["mode", "watch-seconds", "volume-medium", "native-sidecar", "file-mode",
     "agent-run-as-user", "agent-run-as-group", "metrics-port"]
  }

  /** Every knob that resolves by itself. */
  function Alone(): seq<string> {
    PlainStrings() + Quantities() + PodKnobs()
  }

  // ----- reading one value ----------------------------------------------------------

  predicate SaneQuantity(text: string) {
    && text != "" && '0' <= text[0] <= '9'
    && forall c :: c in text ==> '0' <= c <= '9' || 'a' <= c <= 'z' || 'A' <= c <= 'Z' || c == '.'
  }

  /** Octal permissions the owner can read, in their shortest spelling. */
  function OctalMode(text: string): Result<string> {
    match Unsigned(if "0o" <= text then text[2..] else text, 8, U32)
    case None => Err
    case Some(mode) => if mode > 0x1FF || mode / 0x100 % 2 == 0 then Err else Ok(Numeral(mode, 8))
  }

  function NonrootId(text: string): Result<nat> {
    match Unsigned(text, 10, U32)
    case Some(id) => if id == 0 then Err else Ok(id)
    case None => Err
  }

  function NumberOf(n: Option<nat>): Result<Setting> {
    match n
    case Some(value) => Ok(Number(value))
    case None => Err
  }

  /** `key=value` of a tier, as the matching annotation would be validated. */
  function ReadKnob(key: string, text: string): Result<Setting> {
    if key in Quantities() then (if SaneQuantity(text) then Ok(Words(text)) else Err)
    else if key == "file-mode" then (var mode :- OctalMode(text); Ok(Words(mode)))
    else if key == "watch-seconds" then NumberOf(Unsigned(text, 10, U64))
    else if key == "mode" then
      (if text == "init" then Ok(Run(Contract.Init))
       else if text == "sidecar" then Ok(Run(Contract.Sidecar))
       else if text == "both" then Ok(Run(Contract.Both))
       else Err)
    else if key == "volume-medium" then
      (if text == "memory" then Ok(Switch(true)) else if text == "disk" then Ok(Switch(false)) else Err)
    else if key == "native-sidecar" then Truth(text)
    else if key == "agent-run-as-user" || key == "agent-run-as-group" then
      (var id :- NonrootId(text); Ok(Number(id)))
    else if key == "metrics-port" then NumberOf(Unsigned(text, 10, U16))
    else if key == "path" then (if "/" <= text then Ok(Words(text)) else Err)
    else if key in StoreStrings() then
      (if text == "" || (key in ["token-secret", "password-secret", "endpoint-secret"] && Free(text, '/'))
       then Err
       else Ok(Words(text)))
    else Err
  }

  function Truth(text: string): Result<Setting> {
    if text == "true" then Ok(Switch(true)) else if text == "false" then Ok(Switch(false)) else Err
  }

  /** An annotation: a store-shaped string is taken as it is. */
  function ReadAnnotation(key: string, text: string): Result<Setting> {
    if key in StoreStrings() then Ok(Words(text)) else ReadKnob(key, text)
  }

  // ----- building a tier ------------------------------------------------------------

  /** The value without its marker, and what the marker says. */
  function Marked(text: string): (string, Option<bool>) {
    if text != "" && text[|text| - 1] == '!' then (TrimEnd(text[..|text| - 1]), Some(false))
    else if text != "" && text[|text| - 1] == '?' then (TrimEnd(text[..|text| - 1]), Some(true))
    else (text, None)
  }

  /** `set`: one knob of a tier. */
  function Put(knobs: Knobs, key: string, text: string): Result<Knobs> {
    var (value, rule) := Marked(text);
    var ruled := if rule.Some? then knobs.(rules := knobs.rules + [(key, rule.value)]) else knobs;
    if key == "overridable" then
      (match Truth(value)
       case Ok(setting) => Ok(ruled.(overridable := Some(setting.on)))
       case Err => Err)
    else
      match ReadKnob(key, value)
      case Ok(setting) => Ok(ruled.(values := ruled.values[key := setting]))
      case Err => Err
  }

  class KnobDefaults {
    var values: map<string, Setting>
    var overridable: Option<bool>
    var rules: seq<(string, bool)>

    ghost function Contents(): Knobs
      reads this
    {
      Knobs(values, overridable, rules)
    }

    constructor ()
      ensures Contents() == Knobs(map[], None, [])
    {
      values, overridable, rules := map[], None, [];
    }

    /** A refused knob stops the installation, so what is left of the tier is not read. */
    method Set(key: string, text: string) returns (ok: bool)
      modifies this
      ensures ok <==> Put(old(Contents()), key, text).Ok?
      ensures ok ==> Contents() == Put(old(Contents()), key, text).value
    {
      hide ReadKnob, TrimEnd;
      var (value, rule) := Marked(text);
      if rule.Some? {
        rules := rules + [(key, rule.value)];
      }
      if key == "overridable" {
        var truth := Truth(value);
        if truth.Err? {
          return false;
        }
        overridable := Some(truth.value.on);
      } else {
        var setting := ReadKnob(key, value);
        if setting.Err? {
          return false;
        }
        values := values[key := setting.value];
      }
      ok := true;
    }
  }

  // ----- the deciding flag ----------------------------------------------------------

  /** The first marker a knob was given. */
  function Rule(rules: seq<(string, bool)>, key: string): Option<bool> {
    if rules == [] then None
    else if rules[0].0 == key then Some(rules[0].1)
    else Rule(rules[1..], key)
  }

  /** The closest word wins: the value's marker, the tier's flag, the installation's. */
  function Pinned(install: Installation, tier: Knobs, key: string): bool {
    !Either(Rule(tier.rules, key), tier.overridable).GetOr(install.overridable)
  }

  function TierOf(perStore: seq<(string, Knobs)>, source: string): Option<Knobs> {
    if perStore == [] then None
    else if perStore[0].0 == source then Some(perStore[0].1)
    else TierOf(perStore[1..], source)
  }

  function Store(install: Installation, source: Option<string>): Option<Knobs> {
    match source
    case None => None
    case Some(name) => TierOf(install.perStore, name)
  }

  /** What the installation supplies for a knob, and whether it is pinned. */
  function Supplied(install: Installation, source: Option<string>, key: string): Option<(Setting, bool)> {
    var store := Store(install, source);
    if store.Some? && key in store.value.values then
      Some((store.value.values[key], Pinned(install, store.value, key)))
    else if key in install.fleet.values then
      Some((install.fleet.values[key], Pinned(install, install.fleet, key)))
    else None
  }

  /** The installation pins this knob to this value: the store's tier sets it, or the fleet's
      does and the store's does not, and that tier's flag for it is "not overridable". */
  ghost predicate Pins(install: Installation, source: Option<string>, key: string, setting: Setting) {
    exists tier ::
      && ((Store(install, source) == Some(tier) && key in tier.values)
          || (tier == install.fleet
              && (Store(install, source).Some? ==> key !in Store(install, source).value.values)))
      && key in tier.values && tier.values[key] == setting
      && match Rule(tier.rules, key) {
           case Some(overridable) => !overridable
           case None => !tier.overridable.GetOr(install.overridable)
         }
  }

  lemma SuppliedPins(install: Installation, source: Option<string>, key: string, setting: Setting)
    ensures Supplied(install, source, key) == Some((setting, true)) <==> Pins(install, source, key, setting)
  {
    hide Rule, TierOf;
    var store := Store(install, source);
    if Supplied(install, source, key) == Some((setting, true)) {
      var tier := if store.Some? && key in store.value.values then store.value else install.fleet;
      assert tier.values[key] == setting && Pinned(install, tier, key);
    }
  }

  lemma {:induction false} RuleFirst(rules: seq<(string, bool)>, more: seq<(string, bool)>, key: string)
    ensures Rule(rules + more, key) == Either(Rule(rules, key), Rule(more, key))
  {
    if rules == [] {
      assert rules + more == more;
    } else {
      assert (rules + more)[1..] == rules[1..] + more;
      RuleFirst(rules[1..], more, key);
    }
  }

  /** A knob set twice in one tier takes its value from the last, and its pin from the first
      that carried a marker. */
  lemma SetTwice(knobs: Knobs, key: string, first: string, second: string)
    requires key != "overridable" && key !in knobs.values && Rule(knobs.rules, key).None?
    requires Put(knobs, key, first).Ok? && Put(Put(knobs, key, first).value, key, second).Ok?
    ensures var twice := Put(Put(knobs, key, first).value, key, second).value;
            && ReadKnob(key, Marked(second).0) == Ok(twice.values[key])
            && Rule(twice.rules, key) == Either(Marked(first).1, Marked(second).1)
  {
    hide ReadKnob, Marked;
    var once := Put(knobs, key, first).value;
    var (_, rule) := Marked(first);
    var (_, again) := Marked(second);
    RuleFirst(knobs.rules, [(key, rule.GetOr(false))], key);
    RuleFirst(once.rules, [(key, again.GetOr(false))], key);
    assert Rule([(key, rule.GetOr(false))], key) == Some(rule.GetOr(false));
    assert Rule([(key, again.GetOr(false))], key) == Some(again.GetOr(false));
  }

  // ----- resolution -----------------------------------------------------------------

  datatype Resolved = Resolved(
    source: string,
    answers: map<string, Setting>,
    endpoint: (Option<string>, Option<string>),
    template: (Option<string>, Option<string>),
    runAsUser: Option<nat>,
    metricsPort: Option<nat>)

  function BuiltIn(key: string): Option<Setting> {
    if key == "mode" then Some(Run(Contract.Sidecar))
    else if key == "watch-seconds" then Some(Number(15))
    else if key == "volume-medium" then Some(Switch(true))
    else if key == "native-sidecar" then Some(Switch(false))
    else if key == "agent-cpu-request" then Some(Words("10m"))
    else if key == "agent-memory-request" then Some(Words("32Mi"))
    else if key == "agent-memory-limit" then Some(Words("64Mi"))
    else None
  }

  /** A differing annotation on a pinned knob. */
  predicate Conflicts(install: Installation, source: Option<string>, pod: Pod, key: string) {
    var supplied := Supplied(install, source, key);
    && supplied.Some? && supplied.value.1
    && pod.Get(key).Some?
    && ReadAnnotation(key, pod.Get(key).value) != Ok(supplied.value.0)
  }

  /** The annotation, else the tier's value, else the built-in. */
  function Answer(install: Installation, source: Option<string>, pod: Pod, key: string): Result<Option<Setting>> {
    match pod.Get(key)
    case None =>
      Ok(match Supplied(install, source, key) case Some((setting, _)) => Some(setting) case None => BuiltIn(key))
    case Some(text) =>
      var setting :- ReadAnnotation(key, text);
      if Conflicts(install, source, pod, key) then Err else Ok(Some(setting))
  }

  function Answers(install: Installation, source: Option<string>, pod: Pod, keys: seq<string>): Result<map<string, Setting>>
    decreases |keys|
  {
    if keys == [] then Ok(map[])
    else
      var key := keys[|keys| - 1];
      var before :- Answers(install, source, pod, keys[..|keys| - 1]);
      var answer :- Answer(install, source, pod, key);
      Ok(if answer.Some? then before[key := answer.value] else before)
  }

  function Default(install: Installation, source: Option<string>, key: string): Option<string> {
    match Supplied(install, source, key)
    case Some((Words(text), _)) => Some(text)
    case _ => None
  }

  predicate IsPinned(install: Installation, source: Option<string>, key: string) {
    Supplied(install, source, key).Some? && Supplied(install, source, key).value.1
  }

  /** A pair answers as one: what the pod says of either half mutes the tiers on both, and a
      pinned half is not to be answered with the other. */
  function Level(install: Installation, source: Option<string>, pod: Pod, a: string, b: string)
    : Result<(Option<string>, Option<string>)>
  {
    if Conflicts(install, source, pod, a) || Conflicts(install, source, pod, b) then Err
    else if IsPinned(install, source, a) && pod.Get(a).None? && pod.Get(b).Some? then Err
    else if IsPinned(install, source, b) && pod.Get(b).None? && pod.Get(a).Some? then Err
    else
      var (x, y) :=
        if pod.Get(a).Some? || pod.Get(b).Some? then (pod.Get(a), pod.Get(b))
        else (Default(install, source, a), Default(install, source, b));
      if x.Some? && y.Some? then Err else Ok((x, y))
  }

  /** The pod's source, else the fleet's; a pinned one refuses another. */
  function SourceOf(install: Installation, pod: Pod): Result<Option<string>> {
    match (pod.Get("source"), install.source)
    case (Some(named), Some(fleet)) =>
      if named !in Sources() || (!install.sourceRule.GetOr(install.overridable) && named != fleet) then Err
      else Ok(Some(named))
    case (Some(named), None) => if named in Sources() then Ok(Some(named)) else Err
    case (None, fleet) => Ok(fleet)
  }

  /** The application's UID, when the pod asks for it; the container's before the pod's. */
  function Inherited(pod: Pod): Result<Option<nat>> {
    match pod.Get("agent-run-as-same-user")
    case None => Ok(None)
    case Some(text) =>
      var same :- Truth(text);
      if !same.on then Ok(None)
      else if pod.Get("agent-run-as-user").Some? then Err
      else
        match Either(pod.containerUid, pod.podUid)
        case None => Err
        case Some(uid) => if uid == 0 || uid >= U32 then Err else Ok(Some(uid))
  }

  function NumberIn(answers: map<string, Setting>, key: string): Option<nat> {
    if key in answers && answers[key].Number? then Some(answers[key].n) else None
  }

  /** A port of zero in the annotation is the pod opting out. */
  function Port(answers: map<string, Setting>, pod: Pod): Option<nat> {
    var port := NumberIn(answers, "metrics-port");
    if port == Some(0) && pod.Get("metrics-port").Some? then None else port
  }

  function Resolve(install: Installation, pod: Pod): Result<Resolved> {
    var source :- SourceOf(install, pod);
    var endpoint :- Level(install, source, pod, "endpoint", "endpoint-secret");
    var template :- Level(install, source, pod, "template", "template-configmap");
    var answers :- Answers(install, source, pod, Alone());
    var inherited :- Inherited(pod);
    if source.None? || endpoint == (None, None) || "path" !in answers || "key" !in answers then Err
    else
      Ok(Resolved(source.value, answers, endpoint, template,
                 Either(inherited, NumberIn(answers, "agent-run-as-user")), Port(answers, pod)))
  }

  // ----- resolution, step by step ---------------------------------------------------

  /** What the list of supplied strings holds for a key. */
  function Found(list: seq<(string, Setting, bool)>, key: string): Option<(Setting, bool)> {
    if list == [] then None
    else if list[0].0 == key then Some((list[0].1, list[0].2))
    else Found(list[1..], key)
  }

  lemma {:induction false} FoundLast(list: seq<(string, Setting, bool)>, last: (string, Setting, bool), key: string)
    ensures Found(list + [last], key) ==
              Either(Found(list, key), if last.0 == key then Some((last.1, last.2)) else None)
  {
    if list == [] {
      assert list + [last] == [last];
    } else {
      assert (list + [last])[1..] == list[1..] + [last];
      FoundLast(list[1..], last, key);
    }
  }

  /** `store_strings`: the string defaults for a source, gathered once. */
  method SuppliedStrings(install: Installation, source: Option<string>) returns (list: seq<(string, Setting, bool)>)
    ensures forall key :: key in StoreStrings() ==> Found(list, key) == Supplied(install, source, key)
  {
    hide Supplied, StoreStrings;
    var keys := StoreStrings();
    list := [];
    for k := 0 to |keys|
      invariant forall key :: Found(list, key) == if key in keys[..k] then Supplied(install, source, key) else None
    {
      var supplied := Supplied(install, source, keys[k]);
      assert forall key :: key in keys[..k + 1] <==> key in keys[..k] || key == keys[k];
      if supplied.Some? {
        var entry := (keys[k], supplied.value.0, supplied.value.1);
        forall key ensures Found(list + [entry], key) ==
                             Either(Found(list, key), if entry.0 == key then supplied else None)
        {
          FoundLast(list, entry, key);
        }
        list := list + [entry];
      }
    }
    assert keys[..|keys|] == keys;
  }

  /** The pod's source against the fleet's. */
  method ResolveSource(install: Installation, pod: Pod) returns (source: Result<Option<string>>)
    ensures source == SourceOf(install, pod)
  {
    hide Sources;
    var named := pod.Get("source");
    if named.Some? && named.value !in Sources() {
      return Err;
    }
    var pinned := install.source.Some? && !install.sourceRule.GetOr(install.overridable);
    if named.Some? && pinned && named.value != install.source.value {
      return Err;
    }
    source := Ok(Either(named, install.source));
  }

  /** A differing half is refused, and so is answering a pinned half with the other; then the
      pod's answers, or, where it has none, the tiers'. */
  method ResolvePair(install: Installation, source: Option<string>, pod: Pod, list: seq<(string, Setting, bool)>,
                     a: string, b: string) returns (pair: Result<(Option<string>, Option<string>)>)
    requires a in StoreStrings() && b in StoreStrings()
    requires forall key :: key in StoreStrings() ==> Found(list, key) == Supplied(install, source, key)
    ensures pair == Level(install, source, pod, a, b)
  {
    hide StoreStrings, Supplied, Found;
    var first, second := Found(list, a), Found(list, b);
    var x, y := pod.Get(a), pod.Get(b);
    if first.Some? && first.value.1 {
      if x.Some? && first.value.0 != Words(x.value) {
        return Err;
      }
      if x.None? && y.Some? {
        return Err;
      }
    }
    if second.Some? && second.value.1 {
      if y.Some? && second.value.0 != Words(y.value) {
        return Err;
      }
      if y.None? && x.Some? {
        return Err;
      }
    }
    if x.None? && y.None? {
      x := if first.Some? && first.value.0.Words? then Some(first.value.0.text) else None;
      y := if second.Some? && second.value.0.Words? then Some(second.value.0.text) else None;
    }
    pair := if x.Some? && y.Some? then Err else Ok((x, y));
  }

  /** `of_pod_with`, as far as resolution goes. */
  method ResolvePod(install: Installation, pod: Pod) returns (request: Result<Resolved>)
    ensures request == Resolve(install, pod)
  {
    PairKeys();
    hide Supplied, ReadAnnotation, Alone, StoreStrings, Level, SourceOf, Inherited, BuiltIn, Found, PairStrings, PlainStrings;
    var named := ResolveSource(install, pod);
    if named.Err? {
      return Err;
    }
    var source := named.value;
    var list := SuppliedStrings(install, source);
    var endpoint := ResolvePair(install, source, pod, list, "endpoint", "endpoint-secret");
    if endpoint.Err? {
      return Err;
    }
    var template := ResolvePair(install, source, pod, list, "template", "template-configmap");
    if template.Err? {
      return Err;
    }
    var answers := AnswersOf(install, source, pod, Alone(), list);
    if answers.Err? {
      return Err;
    }
    var inherited := Inherited(pod);
    if inherited.Err? || source.None? || endpoint.value == (None, None) ||
       "path" !in answers.value || "key" !in answers.value
    {
      return Err;
    }
    var user := Either(inherited.value, NumberIn(answers.value, "agent-run-as-user"));
    request := Ok(Resolved(source.value, answers.value, endpoint.value, template.value, user,
                          Port(answers.value, pod)));
  }

  /** Each knob in turn, the strings from the list gathered once. */
  method AnswersOf(install: Installation, source: Option<string>, pod: Pod, keys: seq<string>,
                   list: seq<(string, Setting, bool)>) returns (answers: Result<map<string, Setting>>)
    requires forall key :: key in StoreStrings() ==> Found(list, key) == Supplied(install, source, key)
    ensures answers == Answers(install, source, pod, keys)
  {
    hide Supplied, ReadAnnotation, StoreStrings, BuiltIn, Found;
    var found: map<string, Setting> := map[];
    for k := 0 to |keys|
      invariant Answers(install, source, pod, keys[..k]) == Ok(found)
    {
      assert keys[..k + 1][..k] == keys[..k];
      var key := keys[k];
      var supplied := if key in StoreStrings() then Found(list, key) else Supplied(install, source, key);
      var annotation := pod.Get(key);
      if annotation.Some? {
        var setting := ReadAnnotation(key, annotation.value);
        if setting.Err? || (supplied.Some? && supplied.value.1 && supplied.value.0 != setting.value) {
          FailsEarly(install, source, pod, keys, k);
          return Err;
        }
        found := found[key := setting.value];
      } else if supplied.Some? {
        found := found[key := supplied.value.0];
      } else if BuiltIn(key).Some? {
        found := found[key := BuiltIn(key).value];
      }
    }
    assert keys[..|keys|] == keys;
    answers := Ok(found);
  }

  lemma {:induction false} FailsEarly(install: Installation, source: Option<string>, pod: Pod, keys: seq<string>, k: nat)
    requires k < |keys| && Answer(install, source, pod, keys[k]).Err?
    ensures Answers(install, source, pod, keys).Err?
    decreases |keys|
  {
    hide Answer;
    if k < |keys| - 1 {
      FailsEarly(install, source, pod, keys[..|keys| - 1], k);
    }
  }

  // ----- what holds of an accepted pod ----------------------------------------------

  lemma {:induction false} AnswersHold(install: Installation, source: Option<string>, pod: Pod, keys: seq<string>, key: string)
    requires Answers(install, source, pod, keys).Ok? && key in keys
    ensures Answer(install, source, pod, key).Ok?
    ensures var answers, answer := Answers(install, source, pod, keys).value, Answer(install, source, pod, key).value;
            if answer.Some? then key in answers && answers[key] == answer.value else key !in answers
    decreases |keys|
  {
    hide Answer;
    var before, last := keys[..|keys| - 1], keys[|keys| - 1];
    if key in before {
      AnswersHold(install, source, pod, before, key);
    } else {
      assert key == last;
      AnswersOnly(install, source, pod, before, key);
    }
  }

  lemma {:induction false} AnswersOnly(install: Installation, source: Option<string>, pod: Pod, keys: seq<string>, key: string)
    requires Answers(install, source, pod, keys).Ok? && key !in keys
    ensures key !in Answers(install, source, pod, keys).value
    decreases |keys|
  {
    hide Answer;
    if keys != [] {
      AnswersOnly(install, source, pod, keys[..|keys| - 1], key);
    }
  }

  /** Every knob of an accepted pod: a pinned one has the pinned value, another has what the
      annotation says, and a silent pod gets the store's value, the fleet's or the built-in. */
  lemma KnobsResolve(install: Installation, pod: Pod, key: string)
    requires Resolve(install, pod).Ok? && key in Alone()
    ensures var request := Resolve(install, pod).value;
            var source := Some(request.source);
            && (forall setting :: Pins(install, source, key, setting) ==>
                  key in request.answers && request.answers[key] == setting)
            && (pod.Get(key).Some? ==>
                  key in request.answers && ReadAnnotation(key, pod.Get(key).value) == Ok(request.answers[key]))
            && (pod.Get(key).None? && Supplied(install, source, key).Some? ==>
                  key in request.answers && request.answers[key] == Supplied(install, source, key).value.0)
            && (pod.Get(key).None? && Supplied(install, source, key).None? ==>
                  if BuiltIn(key).None? then key !in request.answers
                  else key in request.answers && request.answers[key] == BuiltIn(key).value)
  {
    hide Alone, Level, SourceOf, Inherited, ReadAnnotation, Supplied, BuiltIn, Pins;
    var source := Some(Resolve(install, pod).value.source);
    AnswersHold(install, source, pod, Alone(), key);
    forall setting | Pins(install, source, key, setting)
      ensures Supplied(install, source, key) == Some((setting, true))
    {
      SuppliedPins(install, source, key, setting);
    }
  }

  /** A pinned source is the source. */
  lemma SourcePinned(install: Installation, pod: Pod, source: string)
    requires Resolve(install, pod).Ok?
    requires install.source == Some(source) && !install.sourceRule.GetOr(install.overridable)
    ensures Resolve(install, pod).value.source == source
  {
    hide Answers, Level, Inherited, Alone, Sources;
  }

  lemma LevelHolds(install: Installation, source: Option<string>, pod: Pod, a: string, b: string, value: string)
    requires a in StoreStrings() && b in StoreStrings()
    requires Level(install, source, pod, a, b).Ok?
    ensures Pins(install, source, a, Words(value)) ==> Level(install, source, pod, a, b).value == (Some(value), None)
    ensures Pins(install, source, b, Words(value)) ==> Level(install, source, pod, a, b).value == (None, Some(value))
  {
    SuppliedPins(install, source, a, Words(value));
    SuppliedPins(install, source, b, Words(value));
    hide Supplied, StoreStrings, Pins;
  }

  /** A pinned half of a pair is the answer, and the other half is none: neither a different
      value nor an answer by the other half gets past it. */
  lemma PairsPinned(install: Installation, pod: Pod, value: string)
    requires Resolve(install, pod).Ok?
    ensures var request := Resolve(install, pod).value;
            var source := Some(request.source);
            && (Pins(install, source, "endpoint", Words(value)) ==> request.endpoint == (Some(value), None))
            && (Pins(install, source, "endpoint-secret", Words(value)) ==> request.endpoint == (None, Some(value)))
            && (Pins(install, source, "template", Words(value)) ==> request.template == (Some(value), None))
            && (Pins(install, source, "template-configmap", Words(value)) ==> request.template == (None, Some(value)))
  {
    PairKeys();
    hide Answers, Level, Inherited, SourceOf, Alone, Pins, StoreStrings, Port, NumberIn;
    var source := Some(Resolve(install, pod).value.source);
    LevelHolds(install, source, pod, "endpoint", "endpoint-secret", value);
    LevelHolds(install, source, pod, "template", "template-configmap", value);
  }

  lemma PairKeys()
    ensures forall key :: key in PairStrings() ==> key in StoreStrings()
    ensures forall key :: key in PlainStrings() ==> key in StoreStrings()
    ensures "endpoint" in StoreStrings() && "endpoint-secret" in StoreStrings()
    ensures "template" in StoreStrings() && "template-configmap" in StoreStrings()
  {
    assert PairStrings()[0] == "endpoint" && PairStrings()[1] == "endpoint-secret";
    assert PairStrings()[2] == "template" && PairStrings()[3] == "template-configmap";
  }

  lemma PodKnob(key: string)
    requires key in PodKnobs()
    ensures key in Alone()
  {
  }

  /** A pinned port is the port, except that a pinned zero restated turns the endpoint off. */
  lemma PortPinned(install: Installation, pod: Pod, port: nat)
    requires Resolve(install, pod).Ok?
    requires Pins(install, Some(Resolve(install, pod).value.source), "metrics-port", Number(port))
    ensures Resolve(install, pod).value.metricsPort ==
              if port == 0 && pod.Get("metrics-port").Some? then None else Some(port)
  {
    assert PodKnobs()[7] == "metrics-port";
    PodKnob("metrics-port");
    KnobsResolve(install, pod, "metrics-port");
    hide Answers, Level, Inherited, SourceOf, Alone, Pins;
  }

  /** A pinned UID is the agent's exactly when the pod does not take the application's, or
      the application's is that one: the pin reads the annotation and the inherited UID wins. */
  lemma UserPinnedExactly(install: Installation, pod: Pod, uid: nat)
    requires Resolve(install, pod).Ok?
    requires Pins(install, Some(Resolve(install, pod).value.source), "agent-run-as-user", Number(uid))
    ensures Resolve(install, pod).value.runAsUser == Some(uid) <==>
              (pod.Get("agent-run-as-same-user") == Some("true") ==>
                 Either(pod.containerUid, pod.podUid) == Some(uid))
  {
    assert PodKnobs()[5] == "agent-run-as-user";
    PodKnob("agent-run-as-user");
    KnobsResolve(install, pod, "agent-run-as-user");
    hide Answers, Level, SourceOf, Alone, Pins, Port;
  }

  lemma {:induction false} AllAnswer(install: Installation, source: Option<string>, pod: Pod, keys: seq<string>)
    requires forall key :: key in keys ==> Answer(install, source, pod, key).Ok?
    ensures Answers(install, source, pod, keys).Ok?
    decreases |keys|
  {
    hide Answer;
    if keys != [] {
      AllAnswer(install, source, pod, keys[..|keys| - 1]);
    }
  }

  function UserPinnedTo10001(): Installation {
    Installation(Knobs(map["agent-run-as-user" := Number(10001)], None, [("agent-run-as-user", false)]),
                 [], None, None, true)
  }

  function RunsAs1000(): Pod {
    Pod(map["source" := "vault", "endpoint" := "https://vault:8200", "key" := "app", "path" := "/c/a.json",
            "agent-run-as-same-user" := "true"], Some(1000), None)
  }

  lemma SampleAnswers(key: string)
    requires key in Alone()
    ensures Answer(UserPinnedTo10001(), Some("vault"), RunsAs1000(), key).Ok?
  {
    hide Alone, BuiltIn, StoreStrings, ReadAnnotation, Supplied;
    NotAlone();
    if RunsAs1000().Get(key).Some? {
      assert key == "key" || key == "path";
      SampleStrings(key);
    }
  }

  lemma SampleStrings(key: string)
    requires key == "key" || key == "path"
    ensures Answer(UserPinnedTo10001(), Some("vault"), RunsAs1000(), key).Ok?
    ensures Answer(UserPinnedTo10001(), Some("vault"), RunsAs1000(), key).value.Some?
  {
    assert PlainStrings()[0] == "key" && PlainStrings()[1] == "path";
    PairKeys();
    hide StoreStrings, PlainStrings, ReadKnob, BuiltIn, Rule;
    assert Supplied(UserPinnedTo10001(), Some("vault"), key).None?;
  }

  lemma NotAlone()
    ensures "source" !in Alone() && "endpoint" !in Alone() && "agent-run-as-same-user" !in Alone()
  {
  }

  /** The claim that a pinned UID always holds fails. */
  lemma PinnedUserNotKept()
    ensures var install, pod := UserPinnedTo10001(), RunsAs1000();
            && Resolve(install, pod).Ok?
            && Pins(install, Some("vault"), "agent-run-as-user", Number(10001))
            && Resolve(install, pod).value.source == "vault"
            && Resolve(install, pod).value.runAsUser == Some(1000)
  {
    var install, pod := UserPinnedTo10001(), RunsAs1000();
    var source := Some("vault");
    SampleParts();
    StringsAlone();
    hide *;
    forall key | key in Alone() ensures Answer(install, source, pod, key).Ok? {
      SampleAnswers(key);
    }
    AllAnswer(install, source, pod, Alone());
    SampleResolves();
  }

  lemma SampleResolves()
    requires Answers(UserPinnedTo10001(), Some("vault"), RunsAs1000(), Alone()).Ok?
    ensures Resolve(UserPinnedTo10001(), RunsAs1000()).Ok?
    ensures Resolve(UserPinnedTo10001(), RunsAs1000()).value.source == "vault"
    ensures Resolve(UserPinnedTo10001(), RunsAs1000()).value.runAsUser == Some(1000)
  {
    hide SourceOf, Level, Inherited, Answer, Answers, Alone, UserPinnedTo10001, RunsAs1000, Port, NumberIn;
    var install, pod := UserPinnedTo10001(), RunsAs1000();
    SampleParts();
    StringsAlone();
    SampleStrings("key");
    SampleStrings("path");
    AnswersHold(install, Some("vault"), pod, Alone(), "key");
    AnswersHold(install, Some("vault"), pod, Alone(), "path");
  }

  lemma SampleParts()
    ensures var install, pod := UserPinnedTo10001(), RunsAs1000();
            && SourceOf(install, pod) == Ok(Some("vault"))
            && Level(install, Some("vault"), pod, "endpoint", "endpoint-secret") == Ok((Some("https://vault:8200"), None))
            && Level(install, Some("vault"), pod, "template", "template-configmap") == Ok((None, None))
            && Inherited(pod) == Ok(Some(1000))
            && Pins(install, Some("vault"), "agent-run-as-user", Number(10001))
  {
    assert Sources()[1] == "vault";
    hide StoreStrings, ReadKnob, Sources;
    SuppliedPins(UserPinnedTo10001(), Some("vault"), "agent-run-as-user", Number(10001));
    hide Pins;
    assert RunsAs1000().Get("agent-run-as-same-user") == Some("true");
  }

  lemma StringsAlone()
    ensures "key" in Alone() && "path" in Alone()
  {
    assert Alone()[0] == "key" && Alone()[1] == "path";
  }

  // ----- restating a pin ------------------------------------------------------------

  /** An annotation that repeats the installation's own string changes nothing at all. */
  lemma RestatingIsNeutral(install: Installation, source: Option<string>, pod: Pod, key: string, text: string)
    requires key in PlainStrings() && pod.Get(key).None? && SourceOf(install, pod) == Ok(source)
    requires Supplied(install, source, key).Some? && Supplied(install, source, key).value.0 == Words(text)
    ensures Resolve(install, pod.(annotations := pod.annotations[key := text])) == Resolve(install, pod)
  {
    var restated := pod.(annotations := pod.annotations[key := text]);
    PlainIsApart(key);
    PairKeys();
    hide PlainStrings, StoreStrings, Alone, Answers, Level, Inherited, SourceOf, Port, Supplied;
    RestatedAnswers(install, source, pod, restated, Alone(), key, text);
    SameRest(install, source, pod, restated);
  }

  /** Resolution reads of the pod, beside the knobs, these annotations only. */
  lemma SameRest(install: Installation, source: Option<string>, pod: Pod, other: Pod)
    requires other.(annotations := pod.annotations) == pod
    requires forall key :: key in PairStrings() ==> other.Get(key) == pod.Get(key)
    requires forall key :: key in PodKnobs() ==> other.Get(key) == pod.Get(key)
    requires other.Get("source") == pod.Get("source")
    requires other.Get("agent-run-as-same-user") == pod.Get("agent-run-as-same-user")
    ensures SourceOf(install, other) == SourceOf(install, pod)
    ensures Level(install, source, other, "endpoint", "endpoint-secret") ==
              Level(install, source, pod, "endpoint", "endpoint-secret")
    ensures Level(install, source, other, "template", "template-configmap") ==
              Level(install, source, pod, "template", "template-configmap")
    ensures Inherited(other) == Inherited(pod)
    ensures forall answers :: Port(answers, other) == Port(answers, pod)
  {
    assert PairStrings()[0] == "endpoint" && PairStrings()[1] == "endpoint-secret";
    assert PairStrings()[2] == "template" && PairStrings()[3] == "template-configmap";
    assert PodKnobs()[5] == "agent-run-as-user" && PodKnobs()[7] == "metrics-port";
    hide PairStrings, PodKnobs, Sources, Level, NumberIn;
    SameLevel(install, source, pod, other, "endpoint", "endpoint-secret");
    SameLevel(install, source, pod, other, "template", "template-configmap");
  }

  lemma SameLevel(install: Installation, source: Option<string>, pod: Pod, other: Pod, a: string, b: string)
    requires other.Get(a) == pod.Get(a) && other.Get(b) == pod.Get(b)
    ensures Level(install, source, other, a, b) == Level(install, source, pod, a, b)
  {
    hide Supplied, ReadAnnotation;
  }

  lemma PlainIsApart(key: string)
    requires key in PlainStrings()
    ensures key !in PairStrings() && key != "source" && key != "agent-run-as-same-user" && key !in PodKnobs()
    ensures key != "endpoint" && key != "endpoint-secret" && key != "template" && key != "template-configmap"
    ensures key != "agent-run-as-user" && key != "metrics-port"
  {
  }

  lemma {:induction false} RestatedAnswers(install: Installation, source: Option<string>, pod: Pod, restated: Pod,
                                           keys: seq<string>, key: string, text: string)
    requires key in StoreStrings() && pod.Get(key).None?
    requires Supplied(install, source, key).Some? && Supplied(install, source, key).value.0 == Words(text)
    requires restated == pod.(annotations := pod.annotations[key := text])
    ensures Answers(install, source, restated, keys) == Answers(install, source, pod, keys)
    decreases |keys|
  {
    hide Supplied, StoreStrings, BuiltIn;
    if keys != [] {
      RestatedAnswers(install, source, pod, restated, keys[..|keys| - 1], key, text);
      var last := keys[|keys| - 1];
      assert last != key ==> restated.Get(last) == pod.Get(last);
      assert Answer(install, source, restated, last) == Answer(install, source, pod, last);
    }
  }

  // ----- what the tiers give, and when a pod is accepted ----------------------------

  /** The installation gives this knob this value: the store's tier, or else the fleet's. */
  ghost predicate Gives(install: Installation, source: Option<string>, key: string, setting: Setting) {
    if exists tier :: Store(install, source) == Some(tier) && key in tier.values then
      exists tier :: Store(install, source) == Some(tier) && key in tier.values && tier.values[key] == setting
    else
      key in install.fleet.values && install.fleet.values[key] == setting
  }

  lemma SuppliedGives(install: Installation, source: Option<string>, key: string, setting: Setting)
    ensures Gives(install, source, key, setting) <==>
              Supplied(install, source, key).Some? && Supplied(install, source, key).value.0 == setting
  {
    hide TierOf, Rule;
  }

  /** A tier is a store's when it is the first under its name. */
  lemma {:induction false} StoreExactly(perStore: seq<(string, Knobs)>, source: string, tier: Knobs)
    ensures TierOf(perStore, source) == Some(tier) <==>
              exists k :: 0 <= k < |perStore| && perStore[k] == (source, tier) &&
                          forall j :: 0 <= j < k ==> perStore[j].0 != source
  {
    if perStore != [] {
      StoreExactly(perStore[1..], source, tier);
      if perStore[0].0 != source {
        if k :| 0 <= k < |perStore[1..]| && perStore[1..][k] == (source, tier) &&
                forall j :: 0 <= j < k ==> perStore[1..][j].0 != source {
          assert perStore[k + 1] == (source, tier);
          assert forall j :: 0 < j < k + 1 ==> perStore[j] == perStore[1..][j - 1];
        }
        if k :| 0 <= k < |perStore| && perStore[k] == (source, tier) &&
                forall j :: 0 <= j < k ==> perStore[j].0 != source {
          assert perStore[1..][k - 1] == (source, tier);
          assert forall j :: 0 <= j < k - 1 ==> perStore[1..][j] == perStore[j + 1];
        }
      }
    }
  }

  /** A pair as it is answered: what the pod says of its halves, or, where it says neither,
      what the tiers give of each, pinned or not. */
  ghost predicate PairAnswered(install: Installation, source: Option<string>, pod: Pod, a: string, b: string,
                               pair: (Option<string>, Option<string>))
  {
    if pod.Get(a).Some? || pod.Get(b).Some? then pair == (pod.Get(a), pod.Get(b))
    else
      && (forall text :: pair.0 == Some(text) <==> Gives(install, source, a, Words(text)))
      && (forall text :: pair.1 == Some(text) <==> Gives(install, source, b, Words(text)))
  }

  /** A pair is accepted: nothing pinned is contradicted or answered by its other half, and
      nobody says both halves. */
  ghost predicate PairAccepted(install: Installation, source: Option<string>, pod: Pod, a: string, b: string) {
    && (forall setting :: Pins(install, source, a, setting) ==>
          pod.Get(b).None? && (pod.Get(a).Some? ==> setting == Words(pod.Get(a).value)))
    && (forall setting :: Pins(install, source, b, setting) ==>
          pod.Get(a).None? && (pod.Get(b).Some? ==> setting == Words(pod.Get(b).value)))
    && !(pod.Get(a).Some? && pod.Get(b).Some?)
    && (pod.Get(a).None? && pod.Get(b).None? ==>
          forall x, y :: !(Gives(install, source, a, Words(x)) && Gives(install, source, b, Words(y))))
  }

  lemma PairExactly(install: Installation, source: Option<string>, pod: Pod, a: string, b: string)
    requires a in StoreStrings() && b in StoreStrings()
    ensures Level(install, source, pod, a, b).Ok? <==> PairAccepted(install, source, pod, a, b)
    ensures Level(install, source, pod, a, b).Ok? ==>
              PairAnswered(install, source, pod, a, b, Level(install, source, pod, a, b).value)
  {
    PinsSupplied(install, source, a);
    PinsSupplied(install, source, b);
    hide Supplied, StoreStrings, Pins, Gives;
  }

  lemma PinsSupplied(install: Installation, source: Option<string>, key: string)
    ensures forall setting :: Pins(install, source, key, setting) <==> Supplied(install, source, key) == Some((setting, true))
    ensures forall setting :: Gives(install, source, key, setting) <==>
              Supplied(install, source, key).Some? && Supplied(install, source, key).value.0 == setting
  {
    hide Pins, Gives, Supplied;
    forall setting
      ensures Pins(install, source, key, setting) <==> Supplied(install, source, key) == Some((setting, true))
      ensures Gives(install, source, key, setting) <==>
                Supplied(install, source, key).Some? && Supplied(install, source, key).value.0 == setting
    {
      SuppliedPins(install, source, key, setting);
      SuppliedGives(install, source, key, setting);
    }
  }

  /** Both pairs of an accepted pod, and of an accepted named render against its own store. */
  lemma PairsResolve(install: Installation, pod: Pod)
    ensures Resolve(install, pod).Ok? ==>
              var request := Resolve(install, pod).value;
              && PairAnswered(install, Some(request.source), pod, "endpoint", "endpoint-secret", request.endpoint)
              && PairAnswered(install, Some(request.source), pod, "template", "template-configmap", request.template)
    ensures ResolveNamed(install, pod).Ok? ==>
              var named := ResolveNamed(install, pod).value;
              && PairAnswered(install, Some(named.source), pod, "endpoint", "endpoint-secret", named.endpoint)
              && PairAnswered(install, Some(named.source), pod, "template", "template-configmap", named.template)
  {
    PairKeys();
    hide Answers, Level, Inherited, SourceOf, Alone, NamedKnobs, PairAnswered, StoreStrings, Port, NumberIn, Sources;
    forall source {:trigger Some(source)} ensures
      && (Level(install, Some(source), pod, "endpoint", "endpoint-secret").Ok? ==>
            PairAnswered(install, Some(source), pod, "endpoint", "endpoint-secret",
                         Level(install, Some(source), pod, "endpoint", "endpoint-secret").value))
      && (Level(install, Some(source), pod, "template", "template-configmap").Ok? ==>
            PairAnswered(install, Some(source), pod, "template", "template-configmap",
                         Level(install, Some(source), pod, "template", "template-configmap").value))
    {
      PairExactly(install, Some(source), pod, "endpoint", "endpoint-secret");
      PairExactly(install, Some(source), pod, "template", "template-configmap");
    }
  }

  /** The source is one the contract knows, and the fleet's where that is pinned. */
  predicate SourceAccepted(install: Installation, pod: Pod) {
    match pod.Get("source")
    case None => install.source.Some?
    case Some(named) =>
      named in Sources() &&
      (install.source.Some? && (install.sourceRule == Some(false) || (install.sourceRule == None && !install.overridable)) ==>
         named == install.source.value)
  }

  /** A knob's annotation is readable, and is the pinned value where there is one. */
  ghost predicate KnobAccepted(install: Installation, source: Option<string>, pod: Pod, key: string) {
    pod.Get(key).Some? ==>
      ReadAnnotation(key, pod.Get(key).value).Ok? &&
      forall setting :: Pins(install, source, key, setting) ==> ReadAnnotation(key, pod.Get(key).value) == Ok(setting)
  }

  /** The application's UID is asked for in words that say so, by nobody who also names one,
      and is there to take, and not root's. */
  predicate UserAccepted(pod: Pod) {
    match pod.Get("agent-run-as-same-user")
    case None => true
    case Some(text) =>
      text == "false" ||
      (text == "true" && pod.Get("agent-run-as-user").None? &&
       match (pod.containerUid, pod.podUid) {
         case (Some(uid), _) => 1 <= uid < 0x1_0000_0000
         case (None, Some(uid)) => 1 <= uid < 0x1_0000_0000
         case (None, None) => false
       })
  }

  ghost predicate HasText(install: Installation, source: Option<string>, pod: Pod, key: string) {
    pod.Get(key).Some? || exists text :: Gives(install, source, key, Words(text))
  }

  ghost predicate Has(install: Installation, source: Option<string>, pod: Pod, key: string) {
    pod.Get(key).Some? || exists setting :: Gives(install, source, key, setting)
  }

  lemma KnobExactly(install: Installation, source: Option<string>, pod: Pod, key: string)
    ensures Answer(install, source, pod, key).Ok? <==> KnobAccepted(install, source, pod, key)
  {
    PinsSupplied(install, source, key);
    hide Supplied, ReadAnnotation, BuiltIn, Pins, Gives;
  }

  lemma {:induction false} AnswersExactly(install: Installation, source: Option<string>, pod: Pod, keys: seq<string>)
    ensures Answers(install, source, pod, keys).Ok? <==> forall key :: key in keys ==> KnobAccepted(install, source, pod, key)
    decreases |keys|
  {
    hide Answer, KnobAccepted;
    if keys != [] {
      AnswersExactly(install, source, pod, keys[..|keys| - 1]);
      KnobExactly(install, source, pod, keys[|keys| - 1]);
      assert forall key :: key in keys <==> key in keys[..|keys| - 1] || key == keys[|keys| - 1];
    }
  }

  lemma HasExactly(install: Installation, source: Option<string>, pod: Pod, keys: seq<string>, key: string)
    requires Answers(install, source, pod, keys).Ok? && key in keys && BuiltIn(key).None?
    ensures key in Answers(install, source, pod, keys).value <==> Has(install, source, pod, key)
  {
    hide Answers, Gives, Supplied, ReadAnnotation, BuiltIn;
    PinsSupplied(install, source, key);
    AnswersHold(install, source, pod, keys, key);
    if Supplied(install, source, key).Some? {
      assert Gives(install, source, key, Supplied(install, source, key).value.0);
    }
  }

  /** A pod is accepted exactly when its source, both pairs, each knob and its UID are, and it
      or the tiers say an address, a key and a path. */
  lemma AcceptedExactly(install: Installation, pod: Pod)
    ensures Resolve(install, pod).Ok? <==>
              && SourceAccepted(install, pod)
              && var source := if pod.Get("source").Some? then pod.Get("source") else install.source;
                 && PairAccepted(install, source, pod, "endpoint", "endpoint-secret")
                 && PairAccepted(install, source, pod, "template", "template-configmap")
                 && (HasText(install, source, pod, "endpoint") || HasText(install, source, pod, "endpoint-secret"))
                 && (forall key :: key in Alone() ==> KnobAccepted(install, source, pod, key))
                 && Has(install, source, pod, "key") && Has(install, source, pod, "path")
                 && UserAccepted(pod)
  {
    PairKeys();
    StringsAlone();
    NothingBuiltIn();
    SourceExactly(install, pod);
    UserExactly(pod);
    ResolveParts(install, pod);
    hide Answers, Level, Inherited, SourceOf, SourceAccepted, UserAccepted, PairAccepted, PairAnswered, Alone, StoreStrings,
         KnobAccepted, Has, HasText, BuiltIn, Port, NumberIn, Sources, Resolve;
    var source := if pod.Get("source").Some? then pod.Get("source") else install.source;
    PairExactly(install, source, pod, "endpoint", "endpoint-secret");
    PairExactly(install, source, pod, "template", "template-configmap");
    AnswersExactly(install, source, pod, Alone());
    if Level(install, source, pod, "endpoint", "endpoint-secret").Ok? {
      AddressExactly(install, source, pod, Level(install, source, pod, "endpoint", "endpoint-secret").value);
    }
    if Answers(install, source, pod, Alone()).Ok? {
      HasExactly(install, source, pod, Alone(), "key");
      HasExactly(install, source, pod, Alone(), "path");
    }
  }

  lemma ResolveParts(install: Installation, pod: Pod)
    ensures Resolve(install, pod).Ok? <==>
              && SourceOf(install, pod).Ok? && SourceOf(install, pod).value.Some?
              && var source := SourceOf(install, pod).value;
                 && Level(install, source, pod, "endpoint", "endpoint-secret").Ok?
                 && Level(install, source, pod, "endpoint", "endpoint-secret").value != (None, None)
                 && Level(install, source, pod, "template", "template-configmap").Ok?
                 && Answers(install, source, pod, Alone()).Ok? && Inherited(pod).Ok?
                 && "path" in Answers(install, source, pod, Alone()).value
                 && "key" in Answers(install, source, pod, Alone()).value
  {
    hide Answers, Level, Inherited, SourceOf, Alone, Port, NumberIn;
  }

  lemma NothingBuiltIn()
    ensures BuiltIn("key").None? && BuiltIn("path").None?
  {
  }

  lemma SourceExactly(install: Installation, pod: Pod)
    ensures SourceOf(install, pod).Ok? && SourceOf(install, pod).value.Some? <==> SourceAccepted(install, pod)
    ensures SourceOf(install, pod).Ok? ==>
              SourceOf(install, pod).value == if pod.Get("source").Some? then pod.Get("source") else install.source
  {
    hide Sources;
  }

  lemma UserExactly(pod: Pod)
    ensures Inherited(pod).Ok? <==> UserAccepted(pod)
    ensures Inherited(pod).Ok? ==>
              Inherited(pod).value ==
                if pod.Get("agent-run-as-same-user") == Some("true") then Either(pod.containerUid, pod.podUid) else None
  {
    assert |"true"| == 4 && |"false"| == 5;
  }

  lemma AddressExactly(install: Installation, source: Option<string>, pod: Pod, pair: (Option<string>, Option<string>))
    requires PairAnswered(install, source, pod, "endpoint", "endpoint-secret", pair)
    ensures pair != (None, None) <==>
              HasText(install, source, pod, "endpoint") || HasText(install, source, pod, "endpoint-secret")
  {
    hide Gives;
    if pair.0.Some? && pod.Get("endpoint").None? && pod.Get("endpoint-secret").None? {
      assert Gives(install, source, "endpoint", Words(pair.0.value));
    }
    if pair.1.Some? && pod.Get("endpoint").None? && pod.Get("endpoint-secret").None? {
      assert Gives(install, source, "endpoint-secret", Words(pair.1.value));
    }
  }

  // ----- what each knob is answered -------------------------------------------------

  /** What a silent pod gets where no tier says anything; a knob that is not here gets none. */
  const SILENT: map<string, Setting> := map[
    "mode" := Run(Contract.Sidecar), "watch-seconds" := Number(15), "volume-medium" := Switch(true),
    "native-sidecar" := Switch(false), "agent-cpu-request" := Words("10m"), "agent-memory-request" := Words("32Mi"),
    "agent-memory-limit" := Words("64Mi")]

  /** The knobs of the default render, and those a named render has of its own. */
  const OF_NAMED: set<string> := {
    "key", "token-secret", "password-secret", "ca-configmap", "tls-secret", "ssh-secret", "aws-secret", "section",
    "auth", "auth-mount", "auth-role", "auth-username", "auth-token-path", "namespace", "ref", "api-url", "watch-seconds"}

  const OF_POD: set<string> := OF_NAMED + {
    "path", "agent-cpu-request", "agent-memory-request", "agent-cpu-limit", "agent-memory-limit", "mode",
    "volume-medium", "native-sidecar", "file-mode", "agent-run-as-user", "agent-run-as-group", "metrics-port"}

  lemma KnobsAre()
    ensures forall key :: key in Alone() <==> key in OF_POD
    ensures forall key :: key in NamedKnobs() <==> key in OF_NAMED
  {
    PlainAre();
    NamedPlainAre();
    hide PlainStrings, OF_NAMED;
    assert forall key :: key in Alone() <==> key in PlainStrings() || key in Quantities() || key in PodKnobs();
  }

  lemma NamedPlainAre()
    ensures forall key :: key in NamedKnobs() <==> key in OF_NAMED
  {
    assert NamedKnobs() ==
           ["key", "token-secret", "password-secret", "ca-configmap", "tls-secret", "ssh-secret", "aws-secret", "section",
            "auth", "auth-mount", "auth-role", "auth-username", "auth-token-path", "namespace", "ref", "api-url",
            "watch-seconds"];
  }

  lemma PlainAre()
    ensures forall key :: key in PlainStrings() <==> key in OF_NAMED + {"path"} - {"watch-seconds"}
  {
  }

  lemma SilentIs(key: string)
    ensures BuiltIn(key) == if key in SILENT then Some(SILENT[key]) else None
  {
  }

  /** What the annotation says, else what the tiers give, else what a silent pod gets. */
  ghost predicate KnobAnswered(install: Installation, source: Option<string>, pod: Pod, key: string,
                               answers: map<string, Setting>)
  {
    if pod.Get(key).Some? then
      key in answers && ReadAnnotation(key, pod.Get(key).value) == Ok(answers[key])
    else if exists setting :: Gives(install, source, key, setting) then
      key in answers && Gives(install, source, key, answers[key])
    else (key in answers <==> key in SILENT) && (key in SILENT ==> answers[key] == SILENT[key])
  }

  lemma KnobIsAnswered(install: Installation, source: Option<string>, pod: Pod, keys: seq<string>, key: string)
    requires Answers(install, source, pod, keys).Ok? && key in keys
    ensures KnobAnswered(install, source, pod, key, Answers(install, source, pod, keys).value)
  {
    hide Answers, Gives, Supplied, ReadAnnotation, BuiltIn;
    AnswersHold(install, source, pod, keys, key);
    PinsSupplied(install, source, key);
    SilentIs(key);
    if Supplied(install, source, key).Some? {
      assert Gives(install, source, key, Supplied(install, source, key).value.0);
    }
  }

  /** Every knob of an accepted pod and of an accepted named render; and the agent's UID and
      its metrics port, which the application's UID and an annotated zero can take away. */
  lemma KnobsAnswered(install: Installation, pod: Pod)
    ensures Resolve(install, pod).Ok? ==>
              var request := Resolve(install, pod).value;
              && (forall key :: key in OF_POD ==> KnobAnswered(install, Some(request.source), pod, key, request.answers))
              && request.runAsUser ==
                   (if pod.Get("agent-run-as-same-user") == Some("true") then Either(pod.containerUid, pod.podUid)
                    else NumberIn(request.answers, "agent-run-as-user"))
              && request.metricsPort ==
                   (if pod.Get("metrics-port").Some? && NumberIn(request.answers, "metrics-port") == Some(0) then None
                    else NumberIn(request.answers, "metrics-port"))
    ensures ResolveNamed(install, pod).Ok? ==>
              var named := ResolveNamed(install, pod).value;
              && Some(named.source) == pod.Get("source") && Some(named.path) == pod.Get("path")
              && forall key :: key in OF_NAMED ==> KnobAnswered(install, Some(named.source), pod, key, named.answers)
  {
    KnobsAre();
    UserExactly(pod);
    hide Answers, Level, Inherited, SourceOf, Alone, NamedKnobs, KnobAnswered, OF_POD, OF_NAMED, NumberIn, Sources;
    if Resolve(install, pod).Ok? {
      var source := Some(Resolve(install, pod).value.source);
      forall key | key in OF_POD
        ensures KnobAnswered(install, source, pod, key, Resolve(install, pod).value.answers)
      {
        KnobIsAnswered(install, source, pod, Alone(), key);
      }
    }
    if ResolveNamed(install, pod).Ok? {
      var source := pod.Get("source");
      forall key | key in OF_NAMED
        ensures KnobAnswered(install, source, pod, key, ResolveNamed(install, pod).value.answers)
      {
        KnobIsAnswered(install, source, pod, NamedKnobs(), key);
      }
    }
  }

  /** A named render is accepted exactly when it names a store and a path of its own, its
      pairs and knobs are accepted, and it or that store's tiers say an address and a key. */
  lemma NamedAcceptedExactly(install: Installation, render: Pod)
    ensures ResolveNamed(install, render).Ok? <==>
              && render.Get("source").Some? && render.Get("source").value in Sources() && render.Get("path").Some?
              && var source := render.Get("source");
                 && PairAccepted(install, source, render, "endpoint", "endpoint-secret")
                 && PairAccepted(install, source, render, "template", "template-configmap")
                 && (HasText(install, source, render, "endpoint") || HasText(install, source, render, "endpoint-secret"))
                 && (forall key :: key in OF_NAMED ==> KnobAccepted(install, source, render, key))
                 && Has(install, source, render, "key")
  {
    PairKeys();
    KnobsAre();
    NothingBuiltIn();
    assert "key" in OF_NAMED;
    NamedParts(install, render);
    hide Answers, Level, PairAccepted, PairAnswered, NamedKnobs, StoreStrings, KnobAccepted, Has, HasText, BuiltIn, Sources,
         OF_NAMED, Alone, ResolveNamed;
    var source := render.Get("source");
    PairExactly(install, source, render, "endpoint", "endpoint-secret");
    PairExactly(install, source, render, "template", "template-configmap");
    AnswersExactly(install, source, render, NamedKnobs());
    if Level(install, source, render, "endpoint", "endpoint-secret").Ok? {
      AddressExactly(install, source, render, Level(install, source, render, "endpoint", "endpoint-secret").value);
    }
    if Answers(install, source, render, NamedKnobs()).Ok? {
      HasExactly(install, source, render, NamedKnobs(), "key");
    }
  }

  lemma NamedParts(install: Installation, render: Pod)
    ensures ResolveNamed(install, render).Ok? <==>
              && render.Get("source").Some? && render.Get("source").value in Sources() && render.Get("path").Some?
              && Level(install, render.Get("source"), render, "endpoint", "endpoint-secret").Ok?
              && Level(install, render.Get("source"), render, "endpoint", "endpoint-secret").value != (None, None)
              && Level(install, render.Get("source"), render, "template", "template-configmap").Ok?
              && Answers(install, render.Get("source"), render, NamedKnobs()).Ok?
              && "key" in Answers(install, render.Get("source"), render, NamedKnobs()).value
  {
    hide Answers, Level, NamedKnobs, Sources;
  }

  // ----- how a knob is read ---------------------------------------------------------

  /** The texts a tier takes for a knob, and what each means. An annotation takes a
      store-shaped string as it stands, and every other knob as a tier does. */
  lemma KnobReadsExactly(key: string, text: string, setting: Setting)
    ensures key == "mode" ==>
              (ReadKnob(key, text) == Ok(setting) <==>
                 (text == "init" && setting == Run(Contract.Init)) || (text == "sidecar" && setting == Run(Contract.Sidecar)) ||
                 (text == "both" && setting == Run(Contract.Both)))
    ensures key == "volume-medium" ==>
              (ReadKnob(key, text) == Ok(setting) <==>
                 (text == "memory" && setting == Switch(true)) || (text == "disk" && setting == Switch(false)))
    ensures key == "native-sidecar" ==>
              (ReadKnob(key, text) == Ok(setting) <==>
                 (text == "true" && setting == Switch(true)) || (text == "false" && setting == Switch(false)))
    ensures key == "watch-seconds" ==>
              (ReadKnob(key, text) == Ok(setting) <==>
                 setting.Number? && Unsigned(text, 10, 0x1_0000_0000_0000_0000) == Some(setting.n))
    ensures key == "metrics-port" ==>
              (ReadKnob(key, text) == Ok(setting) <==>
                 setting.Number? && Unsigned(text, 10, 0x1_0000) == Some(setting.n))
    ensures key == "agent-run-as-user" || key == "agent-run-as-group" ==>
              (ReadKnob(key, text) == Ok(setting) <==>
                 setting.Number? && setting.n > 0 && Unsigned(text, 10, 0x1_0000_0000) == Some(setting.n))
  {
    hide Quantities, StoreStrings;
    KnobsApart();
  }

  /** And of the knobs that stay text: quantities, paths and permissions. */
  lemma TextReadsExactly(key: string, text: string, setting: Setting)
    ensures key in {"agent-cpu-request", "agent-memory-request", "agent-cpu-limit", "agent-memory-limit"} ==>
              (ReadKnob(key, text) == Ok(setting) <==>
                 setting == Words(text) && text != "" && '0' <= text[0] <= '9' &&
                 forall c :: c in text ==> '0' <= c <= '9' || 'a' <= c <= 'z' || 'A' <= c <= 'Z' || c == '.')
    ensures key == "path" ==>
              (ReadKnob(key, text) == Ok(setting) <==> setting == Words(text) && text != "" && text[0] == '/')
    ensures key == "file-mode" ==>
              (ReadKnob(key, text) == Ok(setting) <==>
                 match Unsigned(if "0o" <= text then text[2..] else text, 8, 0x1_0000_0000) {
                   case None => false
                   case Some(mode) => mode < 512 && (mode / 256) % 2 == 1 && setting == Words(Numeral(mode, 8))
                 })
  {
    KnobsApart();
    hide Quantities, StoreStrings;
  }

  /** And store-shaped strings, which an annotation may give any text. */
  lemma StringReadsExactly(key: string, text: string, setting: Setting)
    requires key in StoreStrings() && key != "path"
    ensures ReadKnob(key, text) == Ok(setting) <==>
              setting == Words(text) &&
              if key in {"token-secret", "password-secret", "endpoint-secret"} then '/' in text else text != ""
  {
    KnobsApart();
    StringsElse(key);
    hide Quantities, StoreStrings, OF_NAMED;
  }

  lemma StringsElse(key: string)
    requires key in StoreStrings() && key != "path"
    ensures key !in {"mode", "volume-medium", "native-sidecar", "watch-seconds", "metrics-port", "agent-run-as-user",
                     "agent-run-as-group", "file-mode", "agent-cpu-request", "agent-memory-request", "agent-cpu-limit",
                     "agent-memory-limit"}
  {
  }

  lemma AnnotationReadsExactly(key: string, text: string)
    ensures ReadAnnotation(key, text) ==
              if key in OF_NAMED + {"path", "endpoint", "endpoint-secret", "template", "template-configmap"} - {"watch-seconds"}
              then Ok(Words(text)) else ReadKnob(key, text)
  {
    KnobsApart();
    hide StoreStrings, OF_NAMED, ReadKnob;
  }

  lemma KnobsApart()
    ensures forall key :: key in Quantities() <==>
              key in {"agent-cpu-request", "agent-memory-request", "agent-cpu-limit", "agent-memory-limit"}
    ensures forall key :: key in StoreStrings() <==>
              key in OF_NAMED + {"path", "endpoint", "endpoint-secret", "template", "template-configmap"} - {"watch-seconds"}
  {
    PlainAre();
    hide PlainStrings, OF_NAMED;
    assert forall key :: key in StoreStrings() <==> key in PairStrings() || key in PlainStrings();
  }

  // ----- named renders --------------------------------------------------------------

  /** What a named render resolves for itself. */
  function NamedKnobs(): seq<string> {
    PlainStrings()[..1] + PlainStrings()[2..] + ["watch-seconds"]
  }

  datatype NamedRender = NamedRender(
    source: string,
    path: string,
    answers: map<string, Setting>,
    endpoint: (Option<string>, Option<string>),
    template: (Option<string>, Option<string>))

  /** `extra_render`: its source and its path are its own, the rest falls to the tiers of
      the store it names. */
  function ResolveNamed(install: Installation, render: Pod): Result<NamedRender> {
    if render.Get("source").None? || render.Get("source").value !in Sources() || render.Get("path").None? then Err
    else
      var source := render.Get("source");
      var endpoint :- Level(install, source, render, "endpoint", "endpoint-secret");
      var template :- Level(install, source, render, "template", "template-configmap");
      var answers :- Answers(install, source, render, NamedKnobs());
      if endpoint == (None, None) || "key" !in answers then Err
      else Ok(NamedRender(source.value, render.Get("path").value, answers, endpoint, template))
  }

  /** A named render's pins are those of the store it names, the pairs included. */
  lemma NamedRendersPinned(install: Installation, render: Pod, key: string, setting: Setting, value: string)
    requires ResolveNamed(install, render).Ok? && key in NamedKnobs()
    ensures var named := ResolveNamed(install, render).value;
            var source := Some(named.source);
            && (Pins(install, source, key, setting) ==> key in named.answers && named.answers[key] == setting)
            && (Pins(install, source, "endpoint", Words(value)) ==> named.endpoint == (Some(value), None))
            && (Pins(install, source, "endpoint-secret", Words(value)) ==> named.endpoint == (None, Some(value)))
            && (Pins(install, source, "template", Words(value)) ==> named.template == (Some(value), None))
            && (Pins(install, source, "template-configmap", Words(value)) ==> named.template == (None, Some(value)))
  {
    PairKeys();
    hide Level, NamedKnobs, ReadAnnotation, Supplied, BuiltIn, Pins, StoreStrings, Sources;
    var source := render.Get("source");
    AnswersHold(install, source, render, NamedKnobs(), key);
    SuppliedPins(install, source, key, setting);
    LevelHolds(install, source, render, "endpoint", "endpoint-secret", value);
    LevelHolds(install, source, render, "template", "template-configmap", value);
  }
}
