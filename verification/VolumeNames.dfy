/** The volume names an injection takes. The check of names looks at containers only, so a
    pod may have a volume of its own called as one of them. */
module VolumeNames {
  import opened Wrappers
  import opened Contract
  import opened JsonPatch
  import opened PodPatch
  import opened Collisions

  const LABEL := "dynamic-config"

  function When<T>(value: Option<T>, name: string): (names: seq<string>)
    ensures forall given :: given in names <==> value.Some? && given == name
  {
    if value.Some? then [name] else []
  }

  function ExtraTakes(extra: Extra): seq<string> {
    When(extra.ca, LABEL + "-ca-" + extra.name)
    + When(extra.ssh, LABEL + "-ssh-" + extra.name)
    + When(extra.tls, LABEL + "-client-tls-" + extra.name)
    + When(extra.template, LABEL + "-template-" + extra.name)
  }

  function ExtrasTake(extra: seq<Extra>): seq<string>
    decreases |extra|
  {
    if extra == [] then [] else ExtrasTake(extra[..|extra| - 1]) + ExtraTakes(extra[|extra| - 1])
  }

  function TakesPart(request: Request, rank: nat): seq<string> {
    match rank
    case 0 => [LABEL]
    case 1 => When(request.ca, LABEL + "-ca")
    case 2 => When(request.ssh, LABEL + "-ssh")
    case 3 => When(request.extraSecret, LABEL + "-extra")
    case 4 => When(request.canary, LABEL + "-canary")
    case 5 => When(request.tls, LABEL + "-client-tls")
    case 6 => ExtrasTake(request.extra)
    case 7 => When(request.template, LABEL + "-template")
    case 8 => When(request.schema, LABEL + "-schema")
    case _ => []
  }

  /** The names taken: one for the rendered files, one for each piece of material asked for,
      and a named render's with its own name behind. */
  function Takes(request: Request): seq<string> {
    Concat((rank: nat) => TakesPart(request, rank), 9)
  }

  // ----- the volumes have those names -----------------------------------------------

  lemma OneVolume(name: string, ref: Option<ObjectRef>, secret: Option<string>)
    ensures NamesIn(MapVolume(name, ref)) == When(ref, name)
    ensures NamesIn(SshVolume(name, ref)) == When(ref, name)
    ensures NamesIn(OpenSecretVolume(name, secret)) == When(secret, name)
  {
    NoNames();
    if ref.Some? {
      OneName(ConfigMapVolume(name, ref.value.name));
      OneName(SecretVolume(name, ref.value.name, 0x100));
    }
    if secret.Some? {
      OneName(SecretVolume(name, secret.value, 0x124));
    }
  }

  lemma ExtraNamed(extra: Extra)
    ensures NamesIn(ExtraVolumes(extra)) == ExtraTakes(extra)
  {
    hide NamesIn, MapVolume, SshVolume, OpenSecretVolume, When;
    var name := extra.name;
    var ca, ssh := MapVolume("dynamic-config-ca-" + name, extra.ca), SshVolume("dynamic-config-ssh-" + name, extra.ssh);
    var tls := OpenSecretVolume("dynamic-config-client-tls-" + name, extra.tls);
    var template := MapVolume("dynamic-config-template-" + name, extra.template);
    OneVolume("dynamic-config-ca-" + name, extra.ca, None);
    OneVolume("dynamic-config-ssh-" + name, extra.ssh, None);
    OneVolume("dynamic-config-client-tls-" + name, None, extra.tls);
    OneVolume("dynamic-config-template-" + name, extra.template, None);
    NamesJoin(ca, ssh);
    NamesJoin(ca + ssh, tls);
    NamesJoin(ca + ssh + tls, template);
    assert LABEL + "-ca-" == "dynamic-config-ca-" && LABEL + "-ssh-" == "dynamic-config-ssh-";
    assert LABEL + "-client-tls-" == "dynamic-config-client-tls-" && LABEL + "-template-" == "dynamic-config-template-";
  }

  lemma {:induction false} ExtrasNamed(extra: seq<Extra>)
    ensures NamesIn(AllExtraVolumes(extra)) == ExtrasTake(extra)
    decreases |extra|
  {
    hide NamesIn, ExtraVolumes, ExtraTakes;
    if extra == [] {
      NoNames();
    } else {
      var before, last := extra[..|extra| - 1], extra[|extra| - 1];
      ExtrasNamed(before);
      ExtraNamed(last);
      NamesJoin(AllExtraVolumes(before), ExtraVolumes(last));
    }
  }

  lemma PartNamed(request: Request, rank: nat)
    ensures NamesIn(VolumePart(request, rank)) == TakesPart(request, rank)
  {
    assert LABEL + "-ca" == "dynamic-config-ca" && LABEL + "-ssh" == "dynamic-config-ssh";
    assert LABEL + "-extra" == "dynamic-config-extra" && LABEL + "-canary" == "dynamic-config-canary";
    assert LABEL + "-client-tls" == "dynamic-config-client-tls" && LABEL + "-template" == "dynamic-config-template";
    assert LABEL + "-schema" == "dynamic-config-schema";
    hide NamesIn, MapVolume, SshVolume, OpenSecretVolume, When, AllExtraVolumes, ExtrasTake;
    match rank {
      case 0 => OneName(RenderedVolume(request.volumeMemory));
      case 1 => OneVolume(LABEL + "-ca", request.ca, None);
      case 2 => OneVolume(LABEL + "-ssh", request.ssh, None);
      case 3 => OneVolume(LABEL + "-extra", None, request.extraSecret);
      case 4 => OneVolume(LABEL + "-canary", request.canary, None);
      case 5 => OneVolume(LABEL + "-client-tls", None, request.tls);
      case 6 => ExtrasNamed(request.extra);
      case 7 => OneVolume(LABEL + "-template", request.template, None);
      case 8 => OneVolume(LABEL + "-schema", request.schema, None);
      case _ => NoNames();
    }
  }

  lemma {:induction false} PartsNamed(volumes: nat -> seq<Json>, names: nat -> seq<string>, ranks: nat)
    requires forall rank: nat :: NamesIn(volumes(rank)) == names(rank)
    ensures NamesIn(Concat(volumes, ranks)) == Concat(names, ranks)
  {
    hide NamesIn;
    if ranks == 0 {
      NoNames();
    } else {
      PartsNamed(volumes, names, ranks - 1);
      NamesJoin(Concat(volumes, ranks - 1), volumes(ranks - 1));
    }
  }

  /** The volumes of the patch have exactly the names it takes, in order. */
  lemma VolumesTake(request: Request)
    ensures NamesIn(Volumes(request)) == Takes(request)
  {
    hide NamesIn, VolumePart, TakesPart;
    forall rank: nat ensures NamesIn(VolumePart(request, rank)) == TakesPart(request, rank) {
      PartNamed(request, rank);
    }
    PartsNamed((rank: nat) => VolumePart(request, rank), (rank: nat) => TakesPart(request, rank), 9);
  }

  // ----- and no two of them are the same --------------------------------------------

  /** What stands behind the label tells which piece of material a name is for. */
  function Behind(name: string): string {
    if |name| <= 14 then "" else name[14..]
  }

  lemma LabelBehind(rest: string)
    ensures Behind(LABEL + rest) == rest
  {
    assert |LABEL| == 14;
    if rest != "" {
      assert (LABEL + rest)[14..] == rest;
    }
  }

  /** The rank of the part a name belongs to. */
  function RankOf(rest: string): nat {
    if rest == "" then 0
    else if rest == "-ca" then 1
    else if rest == "-ssh" then 2
    else if rest == "-extra" then 3
    else if rest == "-canary" then 4
    else if rest == "-client-tls" then 5
    else if rest == "-template" then 7
    else if rest == "-schema" then 8
    else 6
  }

  predicate OfExtra(rest: string, name: string) {
    rest == "-ca-" + name || rest == "-ssh-" + name || rest == "-client-tls-" + name || rest == "-template-" + name
  }

  /** A named render's names are none of the others'. */
  lemma ExtraRank(rest: string, name: string)
    requires OfExtra(rest, name)
    ensures RankOf(rest) == 6
  {
    if rest == "-ca-" + name {
      assert rest[3] == '-' && |rest| >= 4;
    } else if rest == "-ssh-" + name {
      assert rest[4] == '-' && |rest| >= 5;
    } else if rest == "-client-tls-" + name {
      assert rest[11] == '-' && |rest| >= 12;
    } else {
      assert rest[9] == '-' && |rest| >= 10;
    }
  }

  lemma ExtraSame(rest: string, a: string, b: string)
    requires OfExtra(rest, a) && OfExtra(rest, b)
    ensures a == b
  {
    var second, third := rest[1], rest[2];
    if second == 's' {
      assert rest[5..] == a && rest[5..] == b;
    } else if second == 't' {
      assert rest[10..] == a && rest[10..] == b;
    } else if third == 'a' {
      assert rest[4..] == a && rest[4..] == b;
    } else {
      assert rest[12..] == a && rest[12..] == b;
    }
  }

  lemma ExtraOnce(extra: Extra)
    ensures Unique(ExtraTakes(extra))
    ensures forall name :: name in ExtraTakes(extra) ==> OfExtra(Behind(name), extra.name)
  {
    var ca, ssh := LABEL + "-ca-" + extra.name, LABEL + "-ssh-" + extra.name;
    var tls, template := LABEL + "-client-tls-" + extra.name, LABEL + "-template-" + extra.name;
    assert ca == LABEL + ("-ca-" + extra.name) && ssh == LABEL + ("-ssh-" + extra.name);
    assert tls == LABEL + ("-client-tls-" + extra.name) && template == LABEL + ("-template-" + extra.name);
    LabelBehind("-ca-" + extra.name);
    LabelBehind("-ssh-" + extra.name);
    LabelBehind("-client-tls-" + extra.name);
    LabelBehind("-template-" + extra.name);
    assert Behind(ca)[2] == 'a' && Behind(ssh)[2] == 's' && Behind(tls)[2] == 'l' && Behind(template)[2] == 'e';
    hide Behind, OfExtra;
    UniqueJoin(When(extra.ca, ca), When(extra.ssh, ssh));
    UniqueJoin(When(extra.ca, ca) + When(extra.ssh, ssh), When(extra.tls, tls));
    UniqueJoin(When(extra.ca, ca) + When(extra.ssh, ssh) + When(extra.tls, tls), When(extra.template, template));
  }

  lemma {:induction false} ExtrasOnce(extra: seq<Extra>)
    requires DistinctRenders(extra)
    ensures Unique(ExtrasTake(extra))
    ensures forall name :: name in ExtrasTake(extra) ==>
              exists k :: 0 <= k < |extra| && OfExtra(Behind(name), extra[k].name)
    decreases |extra|
  {
    hide Behind, OfExtra, ExtraTakes;
    if extra != [] {
      var before, last := extra[..|extra| - 1], extra[|extra| - 1];
      ExtrasOnce(before);
      ExtraOnce(last);
      forall name | name in ExtrasTake(before) && name in ExtraTakes(last) ensures false {
        var k :| 0 <= k < |before| && OfExtra(Behind(name), before[k].name);
        ExtraSame(Behind(name), before[k].name, last.name);
      }
      UniqueJoin(ExtrasTake(before), ExtraTakes(last));
      forall name | name in ExtrasTake(extra)
        ensures exists k :: 0 <= k < |extra| && OfExtra(Behind(name), extra[k].name)
      {
        if name in ExtrasTake(before) {
          var k :| 0 <= k < |before| && OfExtra(Behind(name), before[k].name);
          assert OfExtra(Behind(name), extra[k].name);
        } else {
          assert OfExtra(Behind(name), extra[|extra| - 1].name);
        }
      }
    }
  }

  lemma PartOnce(request: Request, rank: nat)
    requires DistinctRenders(request.extra)
    ensures Unique(TakesPart(request, rank))
    ensures forall name :: name in TakesPart(request, rank) ==> RankOf(Behind(name)) == rank
  {
    if rank == 6 {
      hide Behind, RankOf, OfExtra;
      ExtrasOnce(request.extra);
      forall name | name in ExtrasTake(request.extra) ensures RankOf(Behind(name)) == 6 {
        var k :| 0 <= k < |request.extra| && OfExtra(Behind(name), request.extra[k].name);
        ExtraRank(Behind(name), request.extra[k].name);
      }
    } else {
      assert LABEL + "" == LABEL;
      LabelBehind("");
      LabelBehind("-ca");
      LabelBehind("-ssh");
      LabelBehind("-extra");
      LabelBehind("-canary");
      LabelBehind("-client-tls");
      LabelBehind("-template");
      LabelBehind("-schema");
      hide Behind;
    }
  }

  lemma {:induction false} PartsOnce(names: nat -> seq<string>, ranks: nat)
    requires forall rank: nat :: Unique(names(rank))
    requires forall rank: nat, name :: name in names(rank) ==> RankOf(Behind(name)) == rank
    ensures Unique(Concat(names, ranks))
    ensures forall name :: name in Concat(names, ranks) ==> RankOf(Behind(name)) < ranks
  {
    hide Behind, RankOf;
    if ranks > 0 {
      PartsOnce(names, ranks - 1);
      var before, last := Concat(names, ranks - 1), names(ranks - 1);
      forall k | 0 <= k < |before| ensures before[k] !in last {
        assert RankOf(Behind(before[k])) < ranks - 1;
      }
      UniqueJoin(Concat(names, ranks - 1), names(ranks - 1));
    }
  }

  lemma TakesOnce(request: Request)
    requires DistinctRenders(request.extra)
    ensures Unique(Takes(request))
  {
    hide TakesPart, RankOf, Behind, DistinctRenders, Unique;
    var names := (rank: nat) => TakesPart(request, rank);
    forall rank: nat
      ensures Unique(names(rank)) && forall name :: name in names(rank) ==> RankOf(Behind(name)) == rank
    {
      PartOnce(request, rank);
    }
    PartsOnce(names, 9);
  }

  // ----- unique after the injection, exactly when -----------------------------------

  function PodVolumes(spec: map<string, Json>): seq<string> {
    NamesIn(ArrayAt(spec, "volumes"))
  }

  /** The volume names of a pod stay unique exactly when none of its own is one that the
      injection takes, which nothing checks. */
  lemma VolumesUniqueExactly(request: Request, webhook: Webhook, spec: map<string, Json>)
    requires SpecOk(request, spec) && Unique(PodVolumes(spec)) && DistinctRenders(request.extra)
    ensures PodVolumes(InjectedSpec(request, webhook, spec)) == PodVolumes(spec) + Takes(request)
    ensures Unique(PodVolumes(InjectedSpec(request, webhook, spec))) <==> Disjoint(PodVolumes(spec), Takes(request))
  {
    hide SpecOk, InjectedSpec, NamesIn, Volumes, Takes, DistinctRenders, Unique, Disjoint;
    SpecElsewhere(request, webhook, spec);
    NamesJoin(ArrayAt(spec, "volumes"), Volumes(request));
    VolumesTake(request);
    TakesOnce(request);
    UniqueJoin(PodVolumes(spec), Takes(request));
  }

  function WithVolume(spec: map<string, Json>, volume: Json): map<string, Json> {
    spec["volumes" := Array([volume])]
  }

  lemma VolumeAdded(request: Request, spec: map<string, Json>, name: string)
    requires SpecOk(request, spec)
    ensures var more := WithVolume(spec, Named(name, map[]));
            && SpecOk(request, more) && PodVolumes(more) == [name]
            && PodNames(more) == PodNames(spec) && Collides(request, more) == Collides(request, spec)
  {
    hide NamesIn, ContainersOk, Wanted, FirstIn;
    OneName(Named(name, map[]));
  }

  /** The claim that a pod which passes the check has distinct volumes after the injection
      fails for a pod with a volume called as the rendered one. */
  lemma VolumesNotKept(webhook: Webhook)
    ensures var spec := WithVolume(SpecOf("app"), Named(LABEL, map[]));
            && SpecOk(Sample(), spec) && Unique(PodVolumes(spec)) && Unique(PodNames(spec))
            && Collides(Sample(), spec).None?
            && !Unique(PodVolumes(InjectedSpec(Sample(), webhook, spec)))
  {
    var spec := WithVolume(SpecOf("app"), Named(LABEL, map[]));
    assert |"app"| == 3 && |"dynamic-config-agent"| == 20 && |"dynamic-config-agent-1"| == 22;
    SpecOfNames("app");
    SampleChecked("app");
    hide SpecOk, SpecOf, Collides, PodNames, PodVolumes, InjectedSpec, Takes, WithVolume, Named;
    VolumeAdded(Sample(), SpecOf("app"), LABEL);
    FirstTaken(Sample());
    VolumesUniqueExactly(Sample(), webhook, spec);
    assert PodVolumes(spec)[0] in Takes(Sample());
  }

  lemma FirstTaken(request: Request)
    ensures LABEL in Takes(request)
  {
    FirstOf((rank: nat) => TakesPart(request, rank), 9);
  }

  lemma {:induction false} FirstOf(names: nat -> seq<string>, ranks: nat)
    requires ranks > 0 && names(0) == [LABEL]
    ensures LABEL in Concat(names, ranks)
  {
    if ranks == 1 {
      assert Concat(names, 0) == [];
      assert Concat(names, 1)[0] == LABEL;
    } else {
      FirstOf(names, ranks - 1);
    }
  }
}
