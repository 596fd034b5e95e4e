/** The agent reads the command line the webhook writes. */
module FlagRoundTrip {
  import opened Wrappers
  import opened Text
  import opened AgentFlags
  import opened Contract
  import Pins

  function FlagIn(item: Item): Flag {
    match item
    case Valued(flag, _) => flag
    case Bare(flag) => flag
    case Through(passed) => passed.flag
  }

  /** What one entry is meant to do to the options. */
  function Does(options: Options, item: Item, reachable: string -> bool): Result<Options> {
    match item
    case Valued(flag, value) => Given(options, flag, value, reachable)
    case Bare(flag) => Ok(Switched(options, flag))
    case Through(passed) =>
      if IsBare(passed.flag) then Ok(Switched(options, passed.flag))
      else Given(options, passed.flag, passed.value, reachable)
  }

  /** What a command line is meant to say, entry by entry. */
  function Meant(options: Options, items: seq<Item>, reachable: string -> bool): Result<Options>
    decreases |items|
  {
    if items == [] then Ok(options)
    else
      var before :- Meant(options, items[..|items| - 1], reachable);
      Does(before, items[|items| - 1], reachable)
  }

  /** The webhook pairs each flag with a value or writes it alone, as its kind asks. */
  predicate Paired(item: Item) {
    match item
    case Valued(flag, _) => !IsBare(flag)
    case Bare(flag) => IsBare(flag)
    case Through(passed) => IsBare(passed.flag) ==> passed.value == ""
  }

  /** A pass-through flag that takes a value has one to take. */
  predicate Solid(item: Item) {
    item.Through? && !IsBare(item.passed.flag) ==> item.passed.value != ""
  }

  predicate AllPaired(items: seq<Item>) {
    forall k :: 0 <= k < |items| ==> Paired(items[k])
  }

  predicate AllSolid(items: seq<Item>) {
    forall k :: 0 <= k < |items| ==> Solid(items[k])
  }

  lemma ParseItem(options: Options, item: Item, rest: seq<string>, reachable: string -> bool)
    requires Paired(item) && Solid(item)
    ensures Parse(options, Words(item) + rest, reachable) ==
              match Does(options, item, reachable) {
                case Err => Err
                case Ok(done) => Parse(done, rest, reachable)
              }
  {
    hide FlagOf, Name, Read;
    var flag, words := FlagIn(item), Words(item) + rest;
    FlagNamed(flag, Name(flag));
    if |Words(item)| == 1 {
      assert words[1..] == rest;
    } else {
      assert words[2..] == rest && words[1] == Words(item)[1];
    }
  }

  /** Read entry by entry: none swallows the next one's flag, and none is unknown. */
  lemma {:induction false} ParseItems(options: Options, items: seq<Item>, rest: seq<string>, reachable: string -> bool)
    requires AllPaired(items) && AllSolid(items)
    ensures Parse(options, CommandLine(items) + rest, reachable) ==
              match Meant(options, items, reachable) {
                case Err => Err
                case Ok(done) => Parse(done, rest, reachable)
              }
    decreases |items|
  {
    hide Parse, Does, Words, Paired, Solid;
    if items == [] {
      assert CommandLine(items) + rest == rest;
    } else {
      var before, last := items[..|items| - 1], items[|items| - 1];
      ParseItems(options, before, Words(last) + rest, reachable);
      assert CommandLine(items) + rest == CommandLine(before) + (Words(last) + rest);
      if Meant(options, before, reachable).Ok? {
        ParseItem(Meant(options, before, reachable).value, last, rest, reachable);
      }
    }
  }

  // ----- what each entry leaves behind ----------------------------------------------

  /** An entry for a flag that occurs once keeps its reading to the end. */
  lemma {:induction false} ValueStays(options: Options, items: seq<Item>, k: nat, text: string, reachable: string -> bool)
    requires k < |items| && Meant(options, items, reachable).Ok?
    requires items[k] == Valued(FlagIn(items[k]), text) || items[k] == Through(Passed(FlagIn(items[k]), text))
    requires !FlagIn(items[k]).Also? && !IsBare(FlagIn(items[k]))
    requires forall j :: k < j < |items| ==> FlagIn(items[j]) != FlagIn(items[k]) && !FlagIn(items[j]).OneShot?
    ensures var values, flag := Meant(options, items, reachable).value.values, FlagIn(items[k]);
            flag in values && Read(flag, text, reachable) == Ok(values[flag])
    decreases |items|
  {
    hide Read;
    if k < |items| - 1 {
      ValueStays(options, items[..|items| - 1], k, text, reachable);
    }
  }

  /** A value is there only because the environment or an entry put it there. */
  lemma {:induction false} ValueComes(options: Options, items: seq<Item>, flag: Flag, reachable: string -> bool)
    requires Meant(options, items, reachable).Ok?
    requires forall k :: 0 <= k < |items| ==> FlagIn(items[k]) != flag && !FlagIn(items[k]).OneShot?
    ensures var done := Meant(options, items, reachable).value;
            && (flag in done.values <==> flag in options.values)
            && (flag in done.values ==> done.values[flag] == options.values[flag])
            && (flag in done.switches <==> flag in options.switches)
    decreases |items|
  {
    hide Read;
    if items != [] {
      ValueComes(options, items[..|items| - 1], flag, reachable);
    }
  }

  /** A bare flag is on exactly when the environment or an entry turned it on. */
  lemma {:induction false} SwitchedExactly(options: Options, items: seq<Item>, flag: Flag, reachable: string -> bool)
    requires Meant(options, items, reachable).Ok? && AllPaired(items)
    requires IsBare(flag) && !flag.OneShot?
    ensures flag in Meant(options, items, reachable).value.switches <==>
              flag in options.switches || exists k :: 0 <= k < |items| && FlagIn(items[k]) == flag
    decreases |items|
  {
    hide Read;
    if items != [] {
      var before, last := items[..|items| - 1], items[|items| - 1];
      assert Paired(last);
      SwitchedExactly(options, before, flag, reachable);
      if k :| 0 <= k < |before| && FlagIn(before[k]) == flag {
        assert FlagIn(items[k]) == flag;
      }
    }
  }

  function AlsoTexts(items: seq<Item>): seq<string>
    decreases |items|
  {
    if items == [] then []
    else
      AlsoTexts(items[..|items| - 1]) +
      if items[|items| - 1].Valued? && items[|items| - 1].flag.Also? then [items[|items| - 1].value] else []
  }

  lemma {:induction false} AlsoKept(options: Options, items: seq<Item>, reachable: string -> bool)
    requires Meant(options, items, reachable).Ok? && AllPaired(items)
    requires forall k :: 0 <= k < |items| && items[k].Through? ==> !items[k].passed.flag.Also?
    ensures Meant(options, items, reachable).value.also == options.also + AlsoTexts(items)
    decreases |items|
  {
    hide Read;
    if items != [] {
      assert Paired(items[|items| - 1]);
      AlsoKept(options, items[..|items| - 1], reachable);
    }
  }

  predicate Readable(item: Item, reachable: string -> bool) {
    match item
    case Valued(flag, value) => flag.Also? || Read(flag, value, reachable).Ok?
    case Bare(_) => true
    case Through(passed) =>
      IsBare(passed.flag) || passed.flag.Also? || Read(passed.flag, passed.value, reachable).Ok?
  }

  lemma DoesExactly(options: Options, item: Item, reachable: string -> bool)
    ensures Does(options, item, reachable).Ok? <==> Readable(item, reachable)
  {
    hide Read;
  }

  /** A command line means something exactly when each value is one its flag takes. */
  lemma {:induction false} MeantExactly(options: Options, items: seq<Item>, reachable: string -> bool)
    ensures Meant(options, items, reachable).Ok? <==>
              forall k :: 0 <= k < |items| ==> Readable(items[k], reachable)
    decreases |items|
  {
    hide Read;
    if items != [] {
      var before, last := items[..|items| - 1], items[|items| - 1];
      MeantExactly(options, before, reachable);
      if Meant(options, before, reachable).Ok? {
        DoesExactly(Meant(options, before, reachable).value, last, reachable);
      }
      assert forall k :: 0 <= k < |before| ==> items[k] == before[k];
    }
  }

  // ----- an empty value swallows the next flag --------------------------------------

  /** Wherever this word stands, something follows it that is not empty. */
  predicate Followed(words: seq<string>, word: string) {
    forall k :: 0 <= k < |words| - 1 && words[k] == word ==> words[k + 1] != ""
  }

  /** However the words are read, a flag that no empty word follows does not become empty. */
  lemma {:induction false} NeverEmpty(options: Options, words: seq<string>, flag: Flag, reachable: string -> bool)
    requires Followed(words, Name(flag))
    requires flag in options.values ==> options.values[flag] != Word("")
    requires Parse(options, words, reachable).Ok?
    ensures var values := Parse(options, words, reachable).value.values;
            flag in values ==> values[flag] != Word("")
    decreases |words|
  {
    hide FlagOf, Name;
    if words != [] {
      var found := FlagOf(words[0]).value;
      FlagNamed(found, words[0]);
      if IsBare(found) {
        NeverEmpty(Switched(options, found), words[1..], flag, reachable);
      } else {
        var given := Given(options, found, words[1], reachable).value;
        NotEmptied(options, found, words[1], flag, reachable);
        NeverEmpty(given, words[2..], flag, reachable);
      }
    }
  }

  lemma NotEmptied(options: Options, found: Flag, text: string, flag: Flag, reachable: string -> bool)
    requires Given(options, found, text, reachable).Ok?
    requires flag in options.values ==> options.values[flag] != Word("")
    requires found == flag ==> text != ""
    ensures var values := Given(options, found, text, reachable).value.values;
            flag in values ==> values[flag] != Word("")
  {
    ReadKeeps(found, text, reachable);
    hide Read;
  }

  lemma ReadKeeps(flag: Flag, text: string, reachable: string -> bool)
    ensures Read(flag, text, reachable).Ok? && Read(flag, text, reachable).value.Word? ==>
              Read(flag, text, reachable).value.text == text
  {
  }

  lemma {:induction false} LineFollowed(items: seq<Item>, flag: Flag)
    requires forall k :: 0 <= k < |items| && FlagIn(items[k]) == flag ==> items[k] == Through(Passed(flag, ""))
    ensures Followed(CommandLine(items), Name(flag))
    decreases |items|
  {
    hide Name;
    if items != [] {
      var before, last := items[..|items| - 1], items[|items| - 1];
      LineFollowed(before, flag);
      Marked(FlagIn(last));
      if Name(FlagIn(last)) == Name(flag) {
        NamesDiffer(FlagIn(last), flag);
      }
    }
  }

  /** Every flag but `--also` occurs once. */
  predicate Distinct(items: seq<Item>) {
    forall j, k :: 0 <= j < k < |items| && FlagIn(items[j]) == FlagIn(items[k]) ==> FlagIn(items[j]).Also?
  }

  predicate PassThroughFlag(flag: Flag) {
    flag.Section? || flag.Auth? || flag.AuthMount? || flag.AuthRole? || flag.AuthUsername? || flag.AuthTokenPath? ||
    flag.Namespace? || flag.Reference? || flag.ApiUrl? || flag.StartupPolicy? || flag.OnDelete? ||
    flag.MaxDocumentBytes? || flag.MaxStaleness? || flag.SshKey? || flag.Ca? || flag.TlsServerName? ||
    flag.TlsSkipVerify? || flag.FileMode? || flag.TemplateInline? || flag.Template? || flag.Schema? ||
    flag.TlsCert? || flag.TlsKey?
  }

  /** The command line reads back as it was meant exactly when no pass-through value is empty:
      an empty one is not written, and its flag takes the next word for its value. */
  lemma ReadsBackExactly(environment: Options, items: seq<Item>, reachable: string -> bool)
    requires AllPaired(items) && Distinct(items) && Meant(environment, items, reachable).Ok?
    requires forall k :: 0 <= k < |items| ==> !FlagIn(items[k]).OneShot?
    requires forall k :: 0 <= k < |items| && items[k].Through? ==>
               PassThroughFlag(FlagIn(items[k])) && FlagIn(items[k]) !in environment.values
    ensures Parse(environment, CommandLine(items), reachable) == Meant(environment, items, reachable) <==>
              AllSolid(items)
  {
    if AllSolid(items) {
      ParseItems(environment, items, [], reachable);
      assert CommandLine(items) + [] == CommandLine(items);
    } else {
      hide Read, Meant, Parse, CommandLine, Name;
      var k :| 0 <= k < |items| && !Solid(items[k]);
      var flag := items[k].passed.flag;
      ValueStays(environment, items, k, "", reachable);
      EmptyReading(flag, reachable);
      forall j | 0 <= j < |items| && FlagIn(items[j]) == flag ensures items[j] == Through(Passed(flag, "")) {
        assert j == k;
      }
      LineFollowed(items, flag);
      if Parse(environment, CommandLine(items), reachable).Ok? {
        NeverEmpty(environment, CommandLine(items), flag, reachable);
      }
    }
  }

  lemma EmptyReading(flag: Flag, reachable: string -> bool)
    requires PassThroughFlag(flag) && Read(flag, "", reachable).Ok?
    ensures Read(flag, "", reachable) == Ok(Word(""))
  {
  }

  // ----- the webhook's own command line ---------------------------------------------

  /** Where a flag stands in what the webhook writes; the pass-through flags share a place. */
  function Rank(flag: Flag): nat {
    match flag
    case Source => 0
    case Endpoint => 1
    case Key => 2
    case Out => 3
    case Watch => 5
    case Dynamic => 6
    case Also => 7
    case Meta => 8
    case NoRevokeOnShutdown => 9
    case NotifyHttp => 10
    case OnDrift => 11
    case NoTlsReload => 12
    case History => 13
    case RequireAck => 14
    case Events => 15
    case Timeout => 16
    case Canary => 17
    case RevokeGrace => 18
    case MetricsAddr => 19
    case _ => 4
  }

  /** Each part holds its own flags only. */
  ghost predicate Ranked(part: nat -> seq<Item>) {
    forall rank :: PartRanked(part(rank), rank)
  }

  ghost predicate PartRanked(part: seq<Item>, rank: nat) {
    && Distinct(part) && AllPaired(part)
    && forall k :: 0 <= k < |part| ==> Rank(FlagIn(part[k])) == rank && !FlagIn(part[k]).OneShot?
  }

  lemma {:induction false} ConcatRanked(part: nat -> seq<Item>, ranks: nat)
    requires Ranked(part)
    ensures Distinct(Concat(part, ranks)) && AllPaired(Concat(part, ranks))
    ensures forall k :: 0 <= k < |Concat(part, ranks)| ==>
              Rank(FlagIn(Concat(part, ranks)[k])) < ranks && !FlagIn(Concat(part, ranks)[k]).OneShot?
  {
    hide Rank;
    if ranks > 0 {
      ConcatRanked(part, ranks - 1);
      assert PartRanked(part(ranks - 1), ranks - 1);
    }
  }

  /** An entry is in the command line exactly when it is in its flag's part. */
  lemma {:induction false} PartHolds(part: nat -> seq<Item>, ranks: nat, item: Item)
    requires Ranked(part)
    ensures item in Concat(part, ranks) <==> Rank(FlagIn(item)) < ranks && item in part(Rank(FlagIn(item)))
  {
    hide Rank, Distinct, AllPaired;
    if ranks > 0 {
      PartHolds(part, ranks - 1, item);
      assert PartRanked(part(ranks - 1), ranks - 1);
    }
  }

  /** The contract's own pass-through flags, each once. */
  predicate Contracted(arguments: seq<Passed>) {
    && (forall k :: 0 <= k < |arguments| ==>
          PassThroughFlag(arguments[k].flag) && (IsBare(arguments[k].flag) ==> arguments[k].value == ""))
    && (forall j, k :: 0 <= j < k < |arguments| ==> arguments[j].flag != arguments[k].flag)
  }

  predicate NothingEmpty(arguments: seq<Passed>) {
    forall k :: 0 <= k < |arguments| ==> IsBare(arguments[k].flag) || arguments[k].value != ""
  }

  lemma PassedRanked(arguments: seq<Passed>)
    requires Contracted(arguments)
    ensures PartRanked(PassedItems(arguments), 4)
  {
    PassedDistinct(arguments);
    hide Distinct;
    var items := PassedItems(arguments);
    forall k | 0 <= k < |items| ensures Rank(FlagIn(items[k])) == 4 && Paired(items[k]) && !FlagIn(items[k]).OneShot? {
      assert PassThroughFlag(arguments[k].flag);
    }
  }

  lemma PassedDistinct(arguments: seq<Passed>)
    requires Contracted(arguments)
    ensures Distinct(PassedItems(arguments))
  {
    hide PassThroughFlag, IsBare;
    var items := PassedItems(arguments);
    assert forall j, k :: 0 <= j < k < |items| ==> FlagIn(items[j]) != FlagIn(items[k]);
  }

  lemma PartIsRanked(request: Request, watch: bool, rank: nat)
    requires Contracted(request.arguments)
    ensures PartRanked(Part(request, watch, rank), rank)
  {
    hide Part, PartRanked;
    if rank < 10 {
      EarlyPart(request, watch, rank);
    } else {
      LatePart(request, watch, rank);
    }
  }

  lemma EarlyPart(request: Request, watch: bool, rank: nat)
    requires Contracted(request.arguments) && rank < 10
    ensures PartRanked(Part(request, watch, rank), rank)
  {
    hide Decimal, PassedItems, CutItems, Address;
    if rank == 4 {
      PassedRanked(request.arguments);
    } else if rank == 7 {
      CutsRanked(request.also);
    }
  }

  lemma LatePart(request: Request, watch: bool, rank: nat)
    requires rank >= 10
    ensures PartRanked(Part(request, watch, rank), rank)
  {
    hide Decimal, PassedItems, CutItems, Address;
  }

  lemma CutsRanked(also: seq<Cut>)
    ensures PartRanked(CutItems(also), 7)
  {
    hide CutText;
  }

  // ----- every field recovered ------------------------------------------------------

  function Field(options: Options, flag: Flag): Option<Reading> {
    if flag in options.values then Some(options.values[flag]) else None
  }

  function WordOf(text: Option<string>): Option<Reading> {
    match text
    case Some(word) => Some(Word(word))
    case None => None
  }

  function CountOf(number: Option<nat>): Option<Reading> {
    match number
    case Some(n) => Some(Count(n))
    case None => None
  }

  /** The environment carries an address and a token, and nothing else. */
  predicate FromPod(environment: Options) {
    && environment.switches == {} && environment.also == []
    && forall flag :: flag in environment.values ==> flag == Endpoint || flag == Token
  }

  /** A part of one valued entry, or none, decides its flag's field. */
  lemma FieldRead(environment: Options, part: nat -> seq<Item>, flag: Flag, value: Option<string>, reachable: string -> bool)
    requires Ranked(part) && Meant(environment, Concat(part, RANKS), reachable).Ok?
    requires Rank(flag) < RANKS && part(Rank(flag)) == Maybe(flag, value) && !flag.Also? && !IsBare(flag)
    ensures var field := Field(Meant(environment, Concat(part, RANKS), reachable).value, flag);
            if value.None? then field == Field(environment, flag)
            else field.Some? && Read(flag, value.value, reachable) == Ok(field.value)
  {
    hide Rank, Meant, Concat, Read;
    var items := Concat(part, RANKS);
    ConcatRanked(part, RANKS);
    if value.None? {
      forall k | 0 <= k < |items| ensures FlagIn(items[k]) != flag {
        PartHolds(part, RANKS, items[k]);
      }
      ValueComes(environment, items, flag, reachable);
    } else {
      var item := Valued(flag, value.value);
      assert Maybe(flag, value)[0] == item;
      PartHolds(part, RANKS, item);
      var k :| 0 <= k < |items| && items[k] == item;
      ValueStays(environment, items, k, value.value, reachable);
    }
  }

  /** A part of one bare entry, or none, decides its flag's switch. */
  lemma SwitchRead(environment: Options, part: nat -> seq<Item>, flag: Flag, on: bool, reachable: string -> bool)
    requires Ranked(part) && Meant(environment, Concat(part, RANKS), reachable).Ok? && FromPod(environment)
    requires Rank(flag) < RANKS && part(Rank(flag)) == When(on, Bare(flag)) && IsBare(flag) && !flag.OneShot?
    ensures flag in Meant(environment, Concat(part, RANKS), reachable).value.switches <==> on
  {
    hide Rank, Meant, Concat, Read;
    var items := Concat(part, RANKS);
    ConcatRanked(part, RANKS);
    SwitchedExactly(environment, items, flag, reachable);
    if on {
      assert When(on, Bare(flag))[0] == Bare(flag);
      PartHolds(part, RANKS, Bare(flag));
      var k :| 0 <= k < |items| && items[k] == Bare(flag);
      assert FlagIn(items[k]) == flag;
    } else {
      forall k | 0 <= k < |items| ensures FlagIn(items[k]) != flag {
        PartHolds(part, RANKS, items[k]);
      }
    }
  }

  function PartOf(request: Request, watch: bool): nat -> seq<Item> {
    (rank: nat) => Part(request, watch, rank)
  }

  lemma RequestRanked(request: Request, watch: bool)
    requires Contracted(request.arguments)
    ensures Ranked(PartOf(request, watch)) && Items(request, watch) == Concat(PartOf(request, watch), RANKS)
  {
    hide Part, PartRanked, Concat;
    forall rank ensures PartRanked(PartOf(request, watch)(rank), rank) {
      PartIsRanked(request, watch, rank);
    }
    assert PartOf(request, watch) == ((rank: nat) => Part(request, watch, rank));
  }

  lemma CountRead(flag: Flag, n: nat, reachable: string -> bool)
    requires n < U64
    ensures Read(Watch, Decimal(n), reachable) == Ok(Count(if n == 0 then 1 else n))
    ensures flag.Timeout? || flag.RevokeGrace? || flag.History? ==>
              (Read(flag, Decimal(n), reachable).Ok? ==> Read(flag, Decimal(n), reachable) == Ok(Count(n)))
  {
    NumeralReadsBack(n, 10, U64);
    hide Unsigned, Decimal;
    assert Unsigned(Decimal(n), 10, U64) == Some(n);
  }

  lemma NumberRead(environment: Options, part: nat -> seq<Item>, flag: Flag, value: Option<nat>, reachable: string -> bool)
    requires Ranked(part) && Meant(environment, Concat(part, RANKS), reachable).Ok? && FromPod(environment)
    requires flag.Timeout? || flag.RevokeGrace? || flag.History?
    requires part(Rank(flag)) == MaybeNumber(flag, value) && (value.Some? ==> value.value < U64)
    ensures Field(Meant(environment, Concat(part, RANKS), reachable).value, flag) == CountOf(value)
  {
    hide Meant, Concat, Read, Decimal;
    var text := match value case Some(n) => Some(Decimal(n)) case None => None;
    FieldRead(environment, part, flag, text, reachable);
    if value.Some? {
      CountRead(flag, value.value, reachable);
    }
  }

  /** The agent accepts the default render's command line exactly when each value is one its
      flag takes, and then reads what the webhook meant. */
  lemma RequestReadsBack(environment: Options, request: Request, watch: bool, reachable: string -> bool)
    requires Contracted(request.arguments) && NothingEmpty(request.arguments)
    ensures Parse(environment, CommandLine(Items(request, watch)), reachable) ==
              Meant(environment, Items(request, watch), reachable)
    ensures Parse(environment, CommandLine(Items(request, watch)), reachable).Ok? <==>
              forall k :: 0 <= k < |Items(request, watch)| ==> Readable(Items(request, watch)[k], reachable)
  {
    var items := Items(request, watch);
    RequestRanked(request, watch);
    ConcatRanked(PartOf(request, watch), RANKS);
    hide Rank, Meant, Concat, Read, Parse, CommandLine, PartOf, Items;
    forall k | 0 <= k < |items| ensures Solid(items[k]) {
      PartHolds(PartOf(request, watch), RANKS, items[k]);
      PartIsSolid(request, watch, Rank(FlagIn(items[k])), items[k]);
    }
    ParseItems(environment, items, [], reachable);
    assert CommandLine(items) + [] == CommandLine(items);
    assert Parse(environment, CommandLine(items), reachable) == Meant(environment, items, reachable);
    MeantExactly(environment, items, reachable);
  }

  lemma PartIsSolid(request: Request, watch: bool, rank: nat, item: Item)
    requires NothingEmpty(request.arguments) && item in PartOf(request, watch)(rank)
    ensures Solid(item)
  {
    hide Part;
    if rank == 4 {
      FourthPart(request, watch);
    } else {
      OnlyFourthThrough(request, watch, rank, item);
    }
  }

  lemma FourthPart(request: Request, watch: bool)
    ensures forall item :: item in PartOf(request, watch)(4) <==> item.Through? && item.passed in request.arguments
  {
    var through := PassedItems(request.arguments);
    assert PartOf(request, watch)(4) == through;
    forall k | 0 <= k < |request.arguments| ensures Through(request.arguments[k]) in through {
      assert through[k] == Through(request.arguments[k]);
    }
  }

  lemma OnlyFourthThrough(request: Request, watch: bool, rank: nat, item: Item)
    requires rank != 4 && item in Part(request, watch, rank)
    ensures !item.Through?
  {
    hide Decimal, CutText, Address, PassedItems;
  }

  /** The command line of this request, read by the agent. */
  function Received(environment: Options, request: Request, watch: bool, reachable: string -> bool): Result<Options> {
    Parse(environment, CommandLine(Items(request, watch)), reachable)
  }

  predicate Acceptable(environment: Options, request: Request, watch: bool, reachable: string -> bool) {
    && Contracted(request.arguments) && NothingEmpty(request.arguments) && FromPod(environment)
    && Received(environment, request, watch, reachable).Ok?
  }

  lemma ReceivedIsMeant(environment: Options, request: Request, watch: bool, reachable: string -> bool)
    requires Acceptable(environment, request, watch, reachable)
    ensures Ranked(PartOf(request, watch)) && Received(environment, request, watch, reachable).Ok?
    ensures Received(environment, request, watch, reachable) ==
              Meant(environment, Concat(PartOf(request, watch), RANKS), reachable)
  {
    RequestReadsBack(environment, request, watch, reachable);
    RequestRanked(request, watch);
  }

  lemma ReceivedField(environment: Options, request: Request, watch: bool, flag: Flag, value: Option<string>,
                      reachable: string -> bool)
    requires Acceptable(environment, request, watch, reachable)
    requires Rank(flag) < RANKS && Part(request, watch, Rank(flag)) == Maybe(flag, value)
    requires !flag.Also? && !IsBare(flag)
    ensures var field := Field(Received(environment, request, watch, reachable).value, flag);
            if value.None? then field == Field(environment, flag)
            else field.Some? && Read(flag, value.value, reachable) == Ok(field.value)
  {
    hide Received, Meant, Concat, Part, Rank, Maybe, Ranked;
    ReceivedIsMeant(environment, request, watch, reachable);
    FieldRead(environment, PartOf(request, watch), flag, value, reachable);
  }

  lemma ReceivedSwitch(environment: Options, request: Request, watch: bool, flag: Flag, on: bool,
                       reachable: string -> bool)
    requires Acceptable(environment, request, watch, reachable)
    requires Rank(flag) < RANKS && Part(request, watch, Rank(flag)) == When(on, Bare(flag))
    requires IsBare(flag) && !flag.OneShot?
    ensures flag in Received(environment, request, watch, reachable).value.switches <==> on
  {
    hide Received, Meant, Concat, Part, Rank, When, Ranked;
    ReceivedIsMeant(environment, request, watch, reachable);
    SwitchRead(environment, PartOf(request, watch), flag, on, reachable);
  }

  lemma ReceivedNumber(environment: Options, request: Request, watch: bool, flag: Flag, value: Option<nat>,
                       reachable: string -> bool)
    requires Acceptable(environment, request, watch, reachable)
    requires flag.Timeout? || flag.RevokeGrace? || flag.History?
    requires Part(request, watch, Rank(flag)) == MaybeNumber(flag, value) && (value.Some? ==> value.value < U64)
    ensures Field(Received(environment, request, watch, reachable).value, flag) == CountOf(value)
  {
    hide Received, Meant, Concat, Part, MaybeNumber, Ranked;
    ReceivedIsMeant(environment, request, watch, reachable);
    NumberRead(environment, PartOf(request, watch), flag, value, reachable);
  }

  lemma WordRead(flag: Flag, text: string, reachable: string -> bool)
    requires flag.Source? || flag.Endpoint? || flag.Key? || flag.Out? || flag.OnDrift? || flag.NotifyHttp? ||
             flag.Canary? || flag.MetricsAddr?
    ensures Read(flag, text, reachable).Ok? ==> Read(flag, text, reachable) == Ok(Word(text))
  {
  }

  lemma StorePlaced(request: Request, watch: bool)
    ensures Part(request, watch, Rank(Source)) == Maybe(Source, Some(request.source))
    ensures Part(request, watch, Rank(Endpoint)) == Maybe(Endpoint, request.endpoint)
    ensures Part(request, watch, Rank(Key)) == Maybe(Key, Some(request.key))
    ensures Part(request, watch, Rank(Out)) == Maybe(Out, Some(request.path))
    ensures Part(request, watch, Rank(Watch)) ==
              Maybe(Watch, if watch then Some(Decimal(request.watchSeconds)) else None)
    ensures Part(request, watch, Rank(Dynamic)) == When(request.dynamic, Bare(Dynamic))
  {
  }

  /** The agent has the store, the document and the file the pod asked for, and watches as
      often as it asked, but for an interval of zero, which it reads as one. */
  lemma StoreRecovered(environment: Options, request: Request, watch: bool, reachable: string -> bool)
    requires Acceptable(environment, request, watch, reachable)
    ensures var options := Received(environment, request, watch, reachable).value;
            && Field(options, Source) == Some(Word(request.source))
            && Field(options, Endpoint) ==
                 (if request.endpoint.Some? then WordOf(request.endpoint) else Field(environment, Endpoint))
            && Field(options, Key) == Some(Word(request.key))
            && Field(options, Out) == Some(Word(request.path))
            && Field(options, Watch) ==
                 (if watch then Some(Count(if request.watchSeconds == 0 then 1 else request.watchSeconds)) else None)
            && (Dynamic in options.switches <==> request.dynamic)
  {
    hide Acceptable, Received, Part, Maybe, When, Read, Decimal;
    StorePlaced(request, watch);
    ReceivedField(environment, request, watch, Source, Some(request.source), reachable);
    ReceivedField(environment, request, watch, Endpoint, request.endpoint, reachable);
    ReceivedField(environment, request, watch, Key, Some(request.key), reachable);
    ReceivedField(environment, request, watch, Out, Some(request.path), reachable);
    ReceivedField(environment, request, watch, Watch,
                  if watch then Some(Decimal(request.watchSeconds)) else None, reachable);
    ReceivedSwitch(environment, request, watch, Dynamic, request.dynamic, reachable);
    WordRead(Source, request.source, reachable);
    WordRead(Endpoint, request.endpoint.GetOr(""), reachable);
    WordRead(Key, request.key, reachable);
    WordRead(Out, request.path, reachable);
    CountRead(Watch, request.watchSeconds, reachable);
    NoWatchFromPod(environment, request, watch, reachable);
  }

  lemma NoWatchFromPod(environment: Options, request: Request, watch: bool, reachable: string -> bool)
    requires Acceptable(environment, request, watch, reachable)
    ensures forall flag :: flag != Endpoint && flag != Token ==> Field(environment, flag) == None
  {
  }

  lemma LeaseSwitchesPlaced(request: Request, watch: bool)
    ensures Part(request, watch, Rank(Meta)) == When(watch && request.meta, Bare(Meta))
    ensures Part(request, watch, Rank(NoRevokeOnShutdown)) ==
              When(watch && request.dynamic && !request.revokeOnShutdown, Bare(NoRevokeOnShutdown))
  {
    hide When, Only, Maybe, MaybeNumber, Port, CanaryItem, PassedItems, CutItems, Decimal;
  }

  lemma SwitchesPlaced(request: Request, watch: bool)
    ensures Part(request, watch, Rank(NoTlsReload)) == When(watch && !request.tlsReload, Bare(NoTlsReload))
    ensures Part(request, watch, Rank(RequireAck)) == When(watch && request.requireAck, Bare(RequireAck))
    ensures Part(request, watch, Rank(Events)) == When(watch && request.events, Bare(Events))
  {
    hide When, Only, Maybe, MaybeNumber, Port, CanaryItem, PassedItems, CutItems, Decimal;
  }

  /** The switches of the agent that stays, each exactly as asked, and none of them on the
      one that runs once. */
  lemma SwitchesRecovered(environment: Options, request: Request, watch: bool, reachable: string -> bool)
    requires Acceptable(environment, request, watch, reachable)
    ensures var options := Received(environment, request, watch, reachable).value;
            && (Meta in options.switches <==> watch && request.meta)
            && (NoRevokeOnShutdown in options.switches <==> watch && request.dynamic && !request.revokeOnShutdown)
            && (NoTlsReload in options.switches <==> watch && !request.tlsReload)
            && (RequireAck in options.switches <==> watch && request.requireAck)
            && (Events in options.switches <==> watch && request.events)
  {
    hide Acceptable, Received, Part, When;
    LeaseSwitchesPlaced(request, watch);
    SwitchesPlaced(request, watch);
    ReceivedSwitch(environment, request, watch, Meta, watch && request.meta, reachable);
    ReceivedSwitch(environment, request, watch, NoRevokeOnShutdown,
                   watch && request.dynamic && !request.revokeOnShutdown, reachable);
    ReceivedSwitch(environment, request, watch, NoTlsReload, watch && !request.tlsReload, reachable);
    ReceivedSwitch(environment, request, watch, RequireAck, watch && request.requireAck, reachable);
    ReceivedSwitch(environment, request, watch, Events, watch && request.events, reachable);
  }

  function WhenWatching<T>(watch: bool, value: Option<T>): Option<T> {
    if watch then value else None
  }

  function CanaryFile(request: Request): Option<string> {
    match request.canary
    case Some(percent) => Some(CANARY_MOUNT + "/" + percent.key)
    case None => None
  }

  function MetricsAddress(port: Option<PortNumber>): Option<string> {
    match port
    case Some(number) => Some(Address(number))
    case None => None
  }

  lemma SettingsPlaced(request: Request, watch: bool)
    ensures Part(request, watch, Rank(NotifyHttp)) == Maybe(NotifyHttp, WhenWatching(watch, request.notifyHttp))
    ensures Part(request, watch, Rank(OnDrift)) == Maybe(OnDrift, WhenWatching(watch, request.onDrift))
    ensures Part(request, watch, Rank(Canary)) == Maybe(Canary, WhenWatching(watch, CanaryFile(request)))
    ensures Part(request, watch, Rank(MetricsAddr)) ==
              Maybe(MetricsAddr, WhenWatching(watch, MetricsAddress(request.metricsPort)))
  {
    hide Decimal, Address, When, PassedItems, CutItems, MaybeNumber;
  }

  lemma NumbersPlaced(request: Request, watch: bool)
    ensures Part(request, watch, Rank(History)) == MaybeNumber(History, WhenWatching(watch, request.history))
    ensures Part(request, watch, Rank(Timeout)) == MaybeNumber(Timeout, WhenWatching(watch, request.timeout))
    ensures Part(request, watch, Rank(RevokeGrace)) ==
              MaybeNumber(RevokeGrace, WhenWatching(watch && request.dynamic && request.revokeOnShutdown, request.revokeGrace))
  {
    hide Decimal, Address, When, PassedItems, CutItems, Maybe, Port, CanaryItem;
  }

  /** The settings of the agent that stays, the numbers read back from their digits. */
  lemma SettingsRecovered(environment: Options, request: Request, watch: bool, reachable: string -> bool)
    requires Acceptable(environment, request, watch, reachable)
    ensures var options := Received(environment, request, watch, reachable).value;
            && Field(options, NotifyHttp) == WhenWatching(watch, WordOf(request.notifyHttp))
            && Field(options, OnDrift) == WhenWatching(watch, WordOf(request.onDrift))
            && Field(options, Canary) == WhenWatching(watch, WordOf(CanaryFile(request)))
            && Field(options, MetricsAddr) == WhenWatching(watch, WordOf(MetricsAddress(request.metricsPort)))
            && Field(options, History) == WhenWatching(watch, CountOf(request.history))
            && Field(options, Timeout) == WhenWatching(watch, CountOf(request.timeout))
            && Field(options, RevokeGrace) ==
                 WhenWatching(watch && request.dynamic && request.revokeOnShutdown, CountOf(request.revokeGrace))
  {
    hide Acceptable, Received, Part, Maybe, MaybeNumber, Read, CanaryFile, MetricsAddress;
    SettingsPlaced(request, watch);
    NumbersPlaced(request, watch);
    NoWatchFromPod(environment, request, watch, reachable);
    WordSetting(environment, request, watch, NotifyHttp, request.notifyHttp, reachable);
    WordSetting(environment, request, watch, OnDrift, request.onDrift, reachable);
    WordSetting(environment, request, watch, Canary, CanaryFile(request), reachable);
    WordSetting(environment, request, watch, MetricsAddr, MetricsAddress(request.metricsPort), reachable);
    ReceivedNumber(environment, request, watch, History, WhenWatching(watch, request.history), reachable);
    ReceivedNumber(environment, request, watch, Timeout, WhenWatching(watch, request.timeout), reachable);
    ReceivedNumber(environment, request, watch, RevokeGrace,
                   WhenWatching(watch && request.dynamic && request.revokeOnShutdown, request.revokeGrace), reachable);
  }

  lemma WordSetting(environment: Options, request: Request, watch: bool, flag: Flag, value: Option<string>,
                    reachable: string -> bool)
    requires Acceptable(environment, request, watch, reachable)
    requires flag.NotifyHttp? || flag.OnDrift? || flag.Canary? || flag.MetricsAddr?
    requires Part(request, watch, Rank(flag)) == Maybe(flag, WhenWatching(watch, value))
    ensures Field(Received(environment, request, watch, reachable).value, flag) == WhenWatching(watch, WordOf(value))
  {
    hide Received, Part, Maybe, Read, Acceptable;
    ReceivedField(environment, request, watch, flag, WhenWatching(watch, value), reachable);
    WordRead(flag, value.GetOr(""), reachable);
    NoWatchFromPod(environment, request, watch, reachable);
  }

  // ----- the pass-through flags and the renderings ----------------------------------

  /** Each pass-through flag reaches the agent, with its own value if it takes one. */
  lemma PassThroughRecovered(environment: Options, request: Request, watch: bool, passed: Passed, reachable: string -> bool)
    requires Acceptable(environment, request, watch, reachable) && passed in request.arguments
    ensures var options := Received(environment, request, watch, reachable).value;
            if IsBare(passed.flag) then passed.flag in options.switches
            else passed.flag in options.values &&
                 Read(passed.flag, passed.value, reachable) == Ok(options.values[passed.flag])
  {
    hide Received, Meant, Concat, Part, Read, Rank;
    PassedIsThrough(environment, request, watch, passed, reachable);
    ReceivedIsMeant(environment, request, watch, reachable);
    hide Acceptable;
    var part := PartOf(request, watch);
    var items := Concat(part, RANKS);
    ConcatRanked(part, RANKS);
    PassedHold(environment, request, watch, passed.flag, reachable);
    var k :| 0 <= k < |items| && items[k] == Through(passed);
    if IsBare(passed.flag) {
      assert FlagIn(items[k]) == passed.flag;
      SwitchedExactly(environment, items, passed.flag, reachable);
    } else {
      ValueStays(environment, items, k, passed.value, reachable);
    }
  }

  lemma PassedIsThrough(environment: Options, request: Request, watch: bool, passed: Passed, reachable: string -> bool)
    requires Acceptable(environment, request, watch, reachable) && passed in request.arguments
    ensures PassThroughFlag(passed.flag)
  {
  }

  /** And one that is not passed through is not there. */
  lemma NotPassedAbsent(environment: Options, request: Request, watch: bool, flag: Flag, reachable: string -> bool)
    requires Acceptable(environment, request, watch, reachable) && PassThroughFlag(flag)
    requires forall passed :: passed in request.arguments ==> passed.flag != flag
    ensures var options := Received(environment, request, watch, reachable).value;
            Field(options, flag) == None && flag !in options.switches
  {
    hide Received, Meant, Concat, Part, Read, Rank;
    ReceivedIsMeant(environment, request, watch, reachable);
    NoWatchFromPod(environment, request, watch, reachable);
    hide Acceptable;
    var part := PartOf(request, watch);
    ConcatRanked(part, RANKS);
    PassedHold(environment, request, watch, flag, reachable);
    ValueComes(environment, Concat(part, RANKS), flag, reachable);
  }

  /** The entries of a pass-through flag are those the request passes through. */
  lemma PassedHold(environment: Options, request: Request, watch: bool, flag: Flag, reachable: string -> bool)
    requires Acceptable(environment, request, watch, reachable) && PassThroughFlag(flag)
    ensures environment.switches == {}
    ensures var items := Concat(PartOf(request, watch), RANKS);
            && (forall passed :: passed in request.arguments && passed.flag == flag ==> Through(passed) in items)
            && (forall k :: 0 <= k < |items| && FlagIn(items[k]) == flag ==>
                  items[k].Through? && items[k].passed in request.arguments)
  {
    hide Concat, Received, Part, Ranked;
    RequestRanked(request, watch);
    FourthPart(request, watch);
    hide PartOf;
    PassedInLine(PartOf(request, watch), request.arguments, flag);
  }

  lemma PassedInLine(part: nat -> seq<Item>, arguments: seq<Passed>, flag: Flag)
    requires Ranked(part) && Rank(flag) == 4
    requires forall item :: item in part(4) <==> item.Through? && item.passed in arguments
    ensures var items := Concat(part, RANKS);
            && (forall passed :: passed in arguments && passed.flag == flag ==> Through(passed) in items)
            && (forall k :: 0 <= k < |items| && FlagIn(items[k]) == flag ==>
                  items[k].Through? && items[k].passed in arguments)
  {
    hide Concat, Ranked, Rank;
    var items := Concat(part, RANKS);
    forall passed | passed in arguments && passed.flag == flag ensures Through(passed) in items {
      PartHolds(part, RANKS, Through(passed));
    }
    forall k | 0 <= k < |items| && FlagIn(items[k]) == flag
      ensures items[k].Through? && items[k].passed in arguments
    {
      PartHolds(part, RANKS, items[k]);
    }
  }

  /** The permissions the webhook writes are the ones the agent reads. */
  lemma FileModeRecovered(mode: nat, reachable: string -> bool)
    requires mode <= 0x1FF && mode / 0x100 % 2 == 1
    ensures Read(FileMode, "0" + Numeral(mode, 8), reachable) == Ok(Count(mode))
  {
    NumeralReads(mode, 8);
    LeadingZero(Numeral(mode, 8), 8);
    var text := "0" + Numeral(mode, 8);
    assert text[1] == Numeral(mode, 8)[0] && Numeral(mode, 8)[0] in Numeral(mode, 8);
    hide Digits, Numeral;
    assert !("0o" <= text) by {
      assert text[1] != 'o';
    }
    assert text[0] == '0';
  }

  /** So an annotation or a default the webhook accepts for permissions means the same to both. */
  lemma AcceptedModeRecovered(text: string, reachable: string -> bool)
    requires Pins.OctalMode(text).Ok?
    ensures exists mode: nat ::
              Pins.OctalMode(text).value == Numeral(mode, 8) &&
              Read(FileMode, "0" + Pins.OctalMode(text).value, reachable) == Ok(Count(mode))
  {
    hide Unsigned, Numeral, Read;
    var mode := Unsigned(if "0o" <= text then text[2..] else text, 8, U32).value;
    FileModeRecovered(mode, reachable);
  }

  lemma {:induction false} LeadingZero(digits: string, radix: nat)
    requires digits != "" && 2 <= radix <= 10
    ensures Digits("0" + digits, radix) == Digits(digits, radix)
  {
    var text, last := "0" + digits, |digits| - 1;
    assert text[..|text| - 1] == "0" + digits[..last];
    if last > 0 {
      LeadingZero(digits[..last], radix);
    } else {
      assert digits[..last] == "" && Digits("0", radix) == Some(0);
    }
  }

  /** A rendering the grammar of the flag can carry. */
  predicate CleanCut(cut: Cut, known: string -> bool) {
    Free(cut.path, ',') && known(cut.path) && (cut.section.Some? ==> Free(cut.section.value, ','))
  }

  /** An extra rendering reads back, with the main render's permissions, exactly when its
      fields hold no comma and its extension names a format. */
  lemma CutReadsBackExactly(cut: Cut, mode: Option<nat>, known: string -> bool)
    ensures ReadRendering(CutText(cut), mode, known) == Ok(Rendering(cut.path, cut.section, mode)) <==>
              CleanCut(cut, known)
  {
    if CleanCut(cut, known) {
      CleanCutReads(cut, mode, known);
    } else if ReadRendering(CutText(cut), mode, known).Ok? {
      FieldsFree(Fields(None, None, mode), Split(CutText(cut), ','));
    }
  }

  predicate FreeFields(fields: Fields) {
    (fields.out.Some? ==> Free(fields.out.value, ',')) && (fields.section.Some? ==> Free(fields.section.value, ','))
  }

  lemma {:induction false} FieldsFree(fields: Fields, texts: seq<string>)
    requires FreeFields(fields) && forall k :: 0 <= k < |texts| ==> Free(texts[k], ',')
    requires ReadFields(fields, texts).Ok?
    ensures FreeFields(ReadFields(fields, texts).value)
    decreases |texts|
  {
    hide Trim, Unsigned;
    if texts != [] {
      FieldsFree(ReadField(fields, texts[0]).value, texts[1..]);
    }
  }

  lemma FieldReads(fields: Fields, field: string, name: string, value: string)
    requires field == name + ['='] + value && (name == "out" || name == "section")
    ensures name == "out" ==> ReadField(fields, field) == Ok(fields.(out := Some(value)))
    ensures name == "section" ==> ReadField(fields, field) == Ok(fields.(section := Some(value)))
  {
    hide Trim, SplitOnce;
    TrimmedStays(name, "");
    SplitAt(name, '=', value);
  }

  function OutField(path: string): string {
    "out=" + path
  }

  function SectionField(section: string): string {
    "section=" + section
  }

  lemma FieldsWritten(cut: Cut)
    ensures Free(cut.path, ',') ==> Free(OutField(cut.path), ',')
    ensures cut.section.Some? && Free(cut.section.value, ',') ==> Free(SectionField(cut.section.value), ',')
    ensures OutField(cut.path) == "out" + ['='] + cut.path
    ensures cut.section.None? ==> CutText(cut) == OutField(cut.path)
    ensures cut.section.Some? ==>
              && SectionField(cut.section.value) == "section" + ['='] + cut.section.value
              && CutText(cut) == OutField(cut.path) + [','] + SectionField(cut.section.value)
  {
  }

  lemma CleanCutReads(cut: Cut, mode: Option<nat>, known: string -> bool)
    requires CleanCut(cut, known)
    ensures ReadRendering(CutText(cut), mode, known) == Ok(Rendering(cut.path, cut.section, mode))
  {
    hide ReadField, Split, OutField, SectionField, CutText, Free;
    var start, first := Fields(None, None, mode), OutField(cut.path);
    FieldsWritten(cut);
    FieldReads(start, first, "out", cut.path);
    match cut.section {
      case None =>
        SplitFree(first, ',');
        assert [first][1..] == [];
        assert ReadFields(ReadField(start, first).value, []) == ReadField(start, first);
      case Some(section) =>
        var second := SectionField(section);
        SplitAt(first, ',', second);
        SplitFree(second, ',');
        FieldReads(start.(out := Some(cut.path)), second, "section", section);
        TwoFields(start, first, second);
    }
  }

  lemma TwoFields(fields: Fields, first: string, second: string)
    requires ReadField(fields, first).Ok?
    ensures ReadFields(fields, [first] + [second]) == ReadField(ReadField(fields, first).value, second)
  {
    hide ReadField;
    assert ([first] + [second])[1..] == [second] && [second][1..] == [];
    var next := ReadField(fields, first).value;
    assert ReadField(next, second).Ok? ==>
             ReadFields(ReadField(next, second).value, []) == ReadField(next, second);
    assert ReadFields(next, [second]) == ReadField(next, second);
  }

  function CutTexts(also: seq<Cut>): (texts: seq<string>)
    ensures |texts| == |also|
    ensures forall k :: 0 <= k < |also| ==> texts[k] == CutText(also[k])
  {
    if also == [] then [] else [CutText(also[0])] + CutTexts(also[1..])
  }

  lemma {:induction false} AlsoTextsJoin(a: seq<Item>, b: seq<Item>)
    ensures AlsoTexts(a + b) == AlsoTexts(a) + AlsoTexts(b)
    decreases |b|
  {
    if b == [] {
      assert a + b == a;
    } else {
      assert (a + b)[..|a + b| - 1] == a + b[..|b| - 1];
      AlsoTextsJoin(a, b[..|b| - 1]);
    }
  }

  lemma {:induction false} NoAlsoTexts(items: seq<Item>)
    requires forall k :: 0 <= k < |items| ==> !FlagIn(items[k]).Also?
    ensures AlsoTexts(items) == []
    decreases |items|
  {
    if items != [] {
      NoAlsoTexts(items[..|items| - 1]);
    }
  }

  lemma {:induction false} CutItemsTexts(also: seq<Cut>)
    ensures AlsoTexts(CutItems(also)) == CutTexts(also)
  {
    hide CutText;
    if also != [] {
      CutItemsTexts(also[1..]);
      var first := Valued(Also, CutText(also[0]));
      assert [first][..0] == [];
      assert AlsoTexts([first]) == [CutText(also[0])];
      AlsoTextsJoin([first], CutItems(also[1..]));
    }
  }

  lemma {:induction false} ConcatTexts(part: nat -> seq<Item>, ranks: nat)
    requires Ranked(part)
    ensures AlsoTexts(Concat(part, ranks)) == if ranks > 7 then AlsoTexts(part(7)) else []
  {
    hide AlsoTexts;
    if ranks > 0 {
      ConcatTexts(part, ranks - 1);
      AlsoTextsJoin(Concat(part, ranks - 1), part(ranks - 1));
      assert PartRanked(part(ranks - 1), ranks - 1);
      if ranks - 1 != 7 {
        NoAlsoTexts(part(ranks - 1));
      }
    } else {
      NoAlsoTexts([]);
    }
  }

  lemma AlsoRecovered(environment: Options, request: Request, watch: bool, reachable: string -> bool)
    requires Acceptable(environment, request, watch, reachable)
    ensures Received(environment, request, watch, reachable).value.also == CutTexts(request.also)
  {
    hide Received, Meant, Concat, Rank, AlsoTexts;
    ReceivedIsMeant(environment, request, watch, reachable);
    var part := PartOf(request, watch);
    var items := Concat(part, RANKS);
    assert part(7) == CutItems(request.also);
    hide Part;
    forall k | 0 <= k < |items| && items[k].Through? ensures !items[k].passed.flag.Also? {
      PartHolds(part, RANKS, items[k]);
      AlsoIsSeventh(items[k], request.also);
    }
    ConcatRanked(part, RANKS);
    AlsoKept(environment, items, reachable);
    ConcatTexts(part, RANKS);
    CutItemsTexts(request.also);
    assert environment.also == [];
  }

  lemma AlsoIsSeventh(item: Item, also: seq<Cut>)
    ensures FlagIn(item).Also? ==> Rank(FlagIn(item)) == 7
    ensures item in CutItems(also) ==> item.Valued?
  {
  }

  /** The value a flag is passed through with. */
  function PassedValue(arguments: seq<Passed>, flag: Flag): Option<string> {
    if arguments == [] then None
    else if arguments[0].flag == flag then Some(arguments[0].value)
    else PassedValue(arguments[1..], flag)
  }

  /** What the agent's last check looks at, said of the request. */
  function Sent(environment: Options, password: bool, request: Request): View {
    View(request.source, request.key, request.path, PassedValue(request.arguments, Auth), Token in environment.values,
         password, set flag | flag in Asked() && PassedValue(request.arguments, flag).Some?)
  }

  lemma {:induction false} PassedValueIs(arguments: seq<Passed>, flag: Flag)
    ensures PassedValue(arguments, flag).Some? ==> Passed(flag, PassedValue(arguments, flag).value) in arguments
    ensures PassedValue(arguments, flag).None? ==> forall passed :: passed in arguments ==> passed.flag != flag
  {
    if arguments != [] {
      PassedValueIs(arguments[1..], flag);
    }
  }

  /** A token is not the webhook's to write. */
  lemma TokenNotWritten(environment: Options, request: Request, watch: bool, reachable: string -> bool)
    requires Acceptable(environment, request, watch, reachable)
    ensures Field(Received(environment, request, watch, reachable).value, Token) == Field(environment, Token)
  {
    hide Received, Meant, Concat, Read, PartOf;
    ReceivedIsMeant(environment, request, watch, reachable);
    var part := PartOf(request, watch);
    var items := Concat(part, RANKS);
    ConcatRanked(part, RANKS);
    FourthPart(request, watch);
    forall k | 0 <= k < |items| ensures FlagIn(items[k]) != Token {
      PartHolds(part, RANKS, items[k]);
      if Rank(FlagIn(items[k])) == 4 {
        PassedIsThrough(environment, request, watch, items[k].passed, reachable);
      }
    }
    ValueComes(environment, items, Token, reachable);
  }

  /** One flag the last check asks about. */
  lemma GivenRecovered(environment: Options, request: Request, watch: bool, flag: Flag, reachable: string -> bool)
    requires Acceptable(environment, request, watch, reachable) && (flag in Asked() || flag.Auth?)
    ensures flag in Received(environment, request, watch, reachable).value.values <==>
              PassedValue(request.arguments, flag).Some?
    ensures flag.Auth? ==>
              TextAt(Received(environment, request, watch, reachable).value, flag) == PassedValue(request.arguments, flag)
  {
    hide Received, Acceptable, Read;
    PassedValueIs(request.arguments, flag);
    match PassedValue(request.arguments, flag)
    case Some(value) =>
      PassThroughRecovered(environment, request, watch, Passed(flag, value), reachable);
      AuthRead(value, reachable);
    case None => NotPassedAbsent(environment, request, watch, flag, reachable);
  }

  lemma AuthRead(text: string, reachable: string -> bool)
    ensures Read(Auth, text, reachable) == Ok(Word(text))
  {
  }

  /** The last check sees the request. */
  lemma ViewRecovered(environment: Options, password: bool, request: Request, watch: bool, reachable: string -> bool)
    requires Acceptable(environment, request, watch, reachable)
    ensures ViewOf(Received(environment, request, watch, reachable).value, password) == Sent(environment, password, request)
  {
    hide Received, Acceptable, Asked, PassedValue, Meant, Ranked;
    ReceivedIsMeant(environment, request, watch, reachable);
    StoreRecovered(environment, request, watch, reachable);
    TokenNotWritten(environment, request, watch, reachable);
    GivenRecovered(environment, request, watch, Auth, reachable);
    forall flag | flag in Asked()
      ensures flag in Received(environment, request, watch, reachable).value.values <==>
                PassedValue(request.arguments, flag).Some?
    {
      GivenRecovered(environment, request, watch, flag, reachable);
    }
  }

  /** The agent starts exactly when each value is one its flag takes, an address comes from
      the pod or its environment, and the last check accepts what the request says; and then
      it has every rendering the pod asked for, in order, each with its own path and section
      and the main render's permissions. */
  lemma RenderingsRecovered(environment: Options, password: bool, request: Request, watch: bool,
                            reachable: string -> bool, known: string -> bool)
    requires Contracted(request.arguments) && NothingEmpty(request.arguments) && FromPod(environment)
    requires forall k :: 0 <= k < |request.also| ==> CleanCut(request.also[k], known)
    ensures var items := Items(request, watch);
            FromArgs(environment, password, CommandLine(items), reachable, known).Ok? <==>
              && (forall k :: 0 <= k < |items| ==> Readable(items[k], reachable))
              && (request.endpoint.Some? || Endpoint in environment.values)
              && Valid(Sent(environment, password, request), known)
    ensures var read := FromArgs(environment, password, CommandLine(Items(request, watch)), reachable, known);
            read.Ok? ==>
              && Ok(read.value.options) == Received(environment, request, watch, reachable)
              && |read.value.also| == |request.also|
              && forall k :: 0 <= k < |request.also| ==>
                   read.value.also[k] ==
                     Rendering(request.also[k].path, request.also[k].section, ModeOf(read.value.options))
  {
    hide Parse, CommandLine, Items, CleanCut, CutText, ReadRendering, Settled, Valid, Sent, ViewOf, FromPod, Contracted,
         NothingEmpty, Readable;
    RequestReadsBack(environment, request, watch, reachable);
    if Received(environment, request, watch, reachable).Ok? {
      StoreRecovered(environment, request, watch, reachable);
      AlsoRecovered(environment, request, watch, reachable);
      ViewRecovered(environment, password, request, watch, reachable);
      hide Acceptable;
      RenderingsSettle(Received(environment, request, watch, reachable).value, request.also, known);
    }
  }

  lemma RenderingsSettle(options: Options, also: seq<Cut>, known: string -> bool)
    requires Source in options.values && Key in options.values && Out in options.values
    requires options.also == CutTexts(also) && forall k :: 0 <= k < |also| ==> CleanCut(also[k], known)
    ensures var read := Settled(options, known);
            && (read.Ok? <==> Endpoint in options.values)
            && (read.Ok? ==>
                  read.value.options == options && |read.value.also| == |also| &&
                  forall k :: 0 <= k < |also| ==>
                    read.value.also[k] == Rendering(also[k].path, also[k].section, ModeOf(options)))
  {
    hide CleanCut, CutText, CutTexts, ReadRenderings, ModeOf;
    CutsRead(also, ModeOf(options), known);
  }

  lemma CutsRead(also: seq<Cut>, mode: Option<nat>, known: string -> bool)
    requires forall k :: 0 <= k < |also| ==> CleanCut(also[k], known)
    ensures var read := ReadRenderings(CutTexts(also), mode, known);
            && read.Ok? && |read.value| == |also|
            && forall k :: 0 <= k < |also| ==> read.value[k] == Rendering(also[k].path, also[k].section, mode)
  {
    hide CleanCut, CutText, ReadRendering;
    var texts := CutTexts(also);
    forall k | 0 <= k < |also|
      ensures ReadRendering(texts[k], mode, known) == Ok(Rendering(also[k].path, also[k].section, mode))
    {
      CutReadsBackExactly(also[k], mode, known);
    }
  }

  // ----- named renders --------------------------------------------------------------

  /** A named render's agent, as a request that asks for nothing else. */
  function AsRequest(extra: Extra): Request {
    Request(extra.source, extra.endpoint, extra.key, extra.path, "", Sidecar, extra.watchSeconds, extra.arguments, [],
            false, false, true, None, None, None, true, None, false, false, None, None, extra.metricsPort,
            extra.ca, extra.ssh, extra.tls, extra.template, None, None, true, false, false, None, false, None, [])
  }

  lemma {:induction false} ConcatSame(part: nat -> seq<Item>, other: nat -> seq<Item>, ranks: nat)
    requires forall rank: nat :: part(rank) == other(rank)
    ensures Concat(part, ranks) == Concat(other, ranks)
  {
    if ranks > 0 {
      ConcatSame(part, other, ranks - 1);
    }
  }

  /** So a named render's command line reads back as that request's does. */
  lemma ExtraIsRequest(extra: Extra, watch: bool)
    ensures ExtraItems(extra, watch) == Items(AsRequest(extra), watch)
  {
    forall rank: nat ensures ExtraPart(extra, watch, rank) == Part(AsRequest(extra), watch, rank) {
      SamePart(extra, watch, rank);
    }
    hide Part, ExtraPart, Concat;
    ConcatSame((rank: nat) => ExtraPart(extra, watch, rank), (rank: nat) => Part(AsRequest(extra), watch, rank), RANKS);
  }

  lemma SamePart(extra: Extra, watch: bool, rank: nat)
    ensures ExtraPart(extra, watch, rank) == Part(AsRequest(extra), watch, rank)
  {
    hide Decimal, PassedItems, Address;
  }
}
