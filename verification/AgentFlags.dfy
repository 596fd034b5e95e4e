/** The agent's command line: the flags it knows and the loop that reads them. */
module AgentFlags {
  import opened Wrappers
  import opened Text

  datatype Flag =
    | Source | Endpoint | Key | Out | Watch | Token | Section | FileMode | MetricsAddr | StartupPolicy
    | MaxDocumentBytes | OnDelete | OnDrift | Canary | Timeout | History | NotifyHttp | Also | Schema
    | MaxStaleness | RevokeGrace | Auth | AuthMount | AuthRole | AuthUsername | AuthTokenPath | Namespace
    | Reference | SshKey | ApiUrl | Template | TemplateInline | Ca | TlsServerName | TlsCert | TlsKey
    | NoTlsReload | RequireAck | Events | Meta | Dynamic | NoRevokeOnShutdown | TlsSkipVerify | OneShot

  function Name(flag: Flag): string {
    match flag
    case Source => "--source"
    case Endpoint => "--endpoint"
    case Key => "--key"
    case Out => "--out"
    case Watch => "--watch"
    case Token => "--token"
    case Section => "--section"
    case FileMode => "--file-mode"
    case MetricsAddr => "--metrics-addr"
    case StartupPolicy => "--startup-policy"
    case MaxDocumentBytes => "--max-document-bytes"
    case OnDelete => "--on-delete"
    case OnDrift => "--on-drift"
    case Canary => "--canary"
    case Timeout => "--timeout"
    case History => "--history"
    case NotifyHttp => "--notify-http"
    case Also => "--also"
    case Schema => "--schema"
    case MaxStaleness => "--max-staleness"
    case RevokeGrace => "--revoke-grace"
    case Auth => "--auth"
    case AuthMount => "--auth-mount"
    case AuthRole => "--auth-role"
    case AuthUsername => "--auth-username"
    case AuthTokenPath => "--auth-token-path"
    case Namespace => "--namespace"
    case Reference => "--ref"
    case SshKey => "--ssh-key"
    case ApiUrl => "--api-url"
    case Template => "--template"
    case TemplateInline => "--template-inline"
    case Ca => "--ca"
    case TlsServerName => "--tls-server-name"
    case TlsCert => "--tls-cert"
    case TlsKey => "--tls-key"
    case NoTlsReload => "--no-tls-reload"
    case RequireAck => "--require-ack"
    case Events => "--events"
    case Meta => "--meta"
    case Dynamic => "--dynamic"
    case NoRevokeOnShutdown => "--no-revoke-on-shutdown"
    case TlsSkipVerify => "--tls-skip-verify"
    case OneShot => "--one-shot"
  }

  /** A flag that takes no value. */
  predicate IsBare(flag: Flag) {
    flag.NoTlsReload? || flag.RequireAck? || flag.Events? || flag.Meta? || flag.Dynamic? ||
    flag.NoRevokeOnShutdown? || flag.TlsSkipVerify? || flag.OneShot?
  }

  /** The flags in the order the reader tries them. */
  function Known(): seq<Flag> {
    [
      Source, Endpoint, Key, Out, Watch, Token, Section, MetricsAddr, StartupPolicy, MaxDocumentBytes,
      OnDelete, OnDrift, NoTlsReload, RequireAck, Events, Canary, Timeout, History, NotifyHttp, Also,
      Schema, Meta, MaxStaleness, Dynamic, NoRevokeOnShutdown, RevokeGrace, FileMode, Auth, AuthMount,
      AuthRole, AuthUsername, AuthTokenPath, Namespace, Reference, SshKey, ApiUrl, Template,
      TemplateInline, Ca, TlsServerName, TlsSkipVerify, TlsCert, TlsKey, OneShot
    ]
  }

  function Find(flags: seq<Flag>, word: string): Option<Flag> {
    if flags == [] then None
    else if Name(flags[0]) == word then Some(flags[0])
    else Find(flags[1..], word)
  }

  /** The flag a word of the command line is. */
  function FlagOf(word: string): Option<Flag> {
    Find(Known(), word)
  }

  /** Enough of a name to tell it from the others: how long it is, its third character and
      its last but one. */
  function Mark(flag: Flag): (nat, char, char) {
    match flag
    case Source => (8, 's', 'c')
    case Endpoint => (10, 'e', 'n')
    case Key => (5, 'k', 'e')
    case Out => (5, 'o', 'u')
    case Watch => (7, 'w', 'c')
    case Token => (7, 't', 'e')
    case Section => (9, 's', 'o')
    case FileMode => (11, 'f', 'd')
    case MetricsAddr => (14, 'm', 'd')
    case StartupPolicy => (16, 's', 'c')
    case MaxDocumentBytes => (20, 'm', 'e')
    case OnDelete => (11, 'o', 't')
    case OnDrift => (10, 'o', 'f')
    case Canary => (8, 'c', 'r')
    case Timeout => (9, 't', 'u')
    case History => (9, 'h', 'r')
    case NotifyHttp => (13, 'n', 't')
    case Also => (6, 'a', 's')
    case Schema => (8, 's', 'm')
    case MaxStaleness => (15, 'm', 's')
    case RevokeGrace => (14, 'r', 'c')
    case Auth => (6, 'a', 't')
    case AuthMount => (12, 'a', 'n')
    case AuthRole => (11, 'a', 'l')
    case AuthUsername => (15, 'a', 'm')
    case AuthTokenPath => (17, 'a', 't')
    case Namespace => (11, 'n', 'c')
    case Reference => (5, 'r', 'e')
    case SshKey => (9, 's', 'e')
    case ApiUrl => (9, 'a', 'r')
    case Template => (10, 't', 't')
    case TemplateInline => (17, 't', 'n')
    case Ca => (4, 'c', 'c')
    case TlsServerName => (17, 't', 'm')
    case TlsCert => (10, 't', 'r')
    case TlsKey => (9, 't', 'e')
    case NoTlsReload => (15, 'n', 'a')
    case RequireAck => (13, 'r', 'c')
    case Events => (8, 'e', 't')
    case Meta => (6, 'm', 't')
    case Dynamic => (9, 'd', 'i')
    case NoRevokeOnShutdown => (23, 'n', 'w')
    case TlsSkipVerify => (17, 't', 'f')
    case OneShot => (10, 'o', 'o')
  }

  predicate Marks(flag: Flag, name: string) {
    |name| == Mark(flag).0 > 2 && name[2] == Mark(flag).1 && name[|name| - 2] == Mark(flag).2
  }

  lemma Marked(flag: Flag)
    ensures Marks(flag, Name(flag))
  {
    hide Name, Marks;
    if Mark(flag).0 < 12 {
      ShortMarked(flag);
    } else {
      LongMarked(flag);
    }
  }

  lemma ShortMarked(flag: Flag)
    requires Mark(flag).0 < 12
    ensures Marks(flag, Name(flag))
  {
  }

  lemma LongMarked(flag: Flag)
    requires Mark(flag).0 >= 12
    ensures Marks(flag, Name(flag))
  {
  }

  lemma MarksDiffer(flag: Flag, other: Flag)
    requires Mark(flag) == Mark(other)
    ensures flag == other
  {
    hide Mark;
    if Mark(flag).0 < 10 {
      ShortMarksDiffer(flag, other);
    } else if Mark(flag).0 < 13 {
      MiddleMarksDiffer(flag, other);
    } else {
      LongMarksDiffer(flag, other);
    }
  }

  lemma ShortMarksDiffer(flag: Flag, other: Flag)
    requires Mark(flag) == Mark(other) && Mark(flag).0 < 10
    ensures flag == other
  {
  }

  lemma MiddleMarksDiffer(flag: Flag, other: Flag)
    requires Mark(flag) == Mark(other) && 10 <= Mark(flag).0 < 13
    ensures flag == other
  {
  }

  lemma LongMarksDiffer(flag: Flag, other: Flag)
    requires Mark(flag) == Mark(other) && Mark(flag).0 >= 13
    ensures flag == other
  {
  }

  lemma NamesDiffer(flag: Flag, other: Flag)
    requires Name(flag) == Name(other)
    ensures flag == other
  {
    Marked(flag);
    Marked(other);
    hide Name, Mark;
    MarksDiffer(flag, other);
  }

  lemma AllKnown(flag: Flag)
    ensures flag in Known()
  {
  }

  lemma {:induction false} FindNamed(flags: seq<Flag>, flag: Flag, word: string)
    requires flag in flags
    ensures Find(flags, word) == Some(flag) <==> word == Name(flag)
  {
    hide Name;
    if Name(flags[0]) == word {
      if word == Name(flag) {
        NamesDiffer(flag, flags[0]);
      }
    } else if flag in flags[1..] {
      FindNamed(flags[1..], flag, word);
    } else {
      FindOnly(flags[1..], flag, word);
    }
  }

  lemma {:induction false} FindOnly(flags: seq<Flag>, flag: Flag, word: string)
    requires flag !in flags
    ensures Find(flags, word) != Some(flag)
  {
    if flags != [] {
      FindOnly(flags[1..], flag, word);
    }
  }

  /** Every flag is known by its own name, and by no other word. */
  lemma FlagNamed(flag: Flag, word: string)
    ensures FlagOf(word) == Some(flag) <==> word == Name(flag)
  {
    AllKnown(flag);
    hide Known, Name;
    FindNamed(Known(), flag, word);
  }

  // ----- reading the command line ---------------------------------------------------

  const MOST_HISTORY: nat := 10

  datatype Reading = Word(text: string) | Count(n: nat)

  /** The mutable locals of the loop, one for each flag, and the extra renderings as written. */
  datatype Options = Options(values: map<Flag, Reading>, switches: set<Flag>, also: seq<string>)

  function Counted(n: Option<nat>, least: nat, most: nat): Result<Reading> {
    if n.Some? && least <= n.value <= most then Ok(Count(n.value)) else Err
  }

  /** Permissions in octal that the owner can read. */
  function ReadMode(text: string): Result<Reading> {
    match Unsigned(if "0o" <= text then text[2..] else text, 8, U32)
    case None => Err
    case Some(mode) => if mode > 0x1FF || mode / 0x100 % 2 == 0 then Err else Ok(Count(mode))
  }

  function OneOf(text: string, words: seq<string>): Result<Reading> {
    if text in words then Ok(Word(text)) else Err
  }

  /** A flag's value; `reachable` says which addresses may be notified. */
  function Read(flag: Flag, text: string, reachable: string -> bool): Result<Reading> {
    match flag
    case Watch =>
      (match Unsigned(text, 10, U64)
       case Some(seconds) => Ok(Count(if seconds == 0 then 1 else seconds))
       case None => Err)
    case StartupPolicy => OneOf(text, ["allow-cached", "require-fresh", "best-effort"])
    case OnDelete => OneOf(text, ["retain", "remove", "fail"])
    case OnDrift => OneOf(text, ["warn", "repair", "fail"])
    case MaxDocumentBytes => Counted(Unsigned(text, 10, U64), 0, U64)
    case Timeout => Counted(Unsigned(text, 10, U64), 1, U64)
    case MaxStaleness => Counted(Unsigned(text, 10, U64), 1, U64)
    case RevokeGrace => Counted(Unsigned(text, 10, U64), 1, U64)
    case History => Counted(Unsigned(text, 10, U64), 0, MOST_HISTORY)
    case FileMode => ReadMode(text)
    case NotifyHttp => if reachable(text) then Ok(Word(text)) else Err
    case _ => Ok(Word(text))
  }

  /** A bare flag; `--one-shot` takes the watch back. */
  function Switched(options: Options, flag: Flag): Options {
    if flag.OneShot? then options.(values := options.values - {Watch})
    else options.(switches := options.switches + {flag})
  }

  function Given(options: Options, flag: Flag, text: string, reachable: string -> bool): Result<Options> {
    if flag.Also? then Ok(options.(also := options.also + [text]))
    else
      var reading :- Read(flag, text, reachable);
      Ok(options.(values := options.values[flag := reading]))
  }

  /** The options after the rest of the command line. */
  function Parse(options: Options, words: seq<string>, reachable: string -> bool): Result<Options>
    decreases |words|
  {
    if words == [] then Ok(options)
    else
      match FlagOf(words[0])
      case None => Err
      case Some(flag) =>
        if IsBare(flag) then Parse(Switched(options, flag), words[1..], reachable)
        else if |words| == 1 then Err
        else
          var given :- Given(options, flag, words[1], reachable);
          Parse(given, words[2..], reachable)
  }

  /** The loop of `from_args`. */
  method ReadWords(environment: Options, words: seq<string>, reachable: string -> bool)
    returns (read: Result<Options>)
    ensures read == Parse(environment, words, reachable)
  {
    hide FlagOf, Read;
    var options, k := environment, 0;
    while k < |words|
      invariant 0 <= k <= |words|
      invariant Parse(environment, words, reachable) == Parse(options, words[k..], reachable)
    {
      assert words[k..][1..] == words[k + 1..];
      match FlagOf(words[k])
      case None => return Err;
      case Some(flag) =>
        if IsBare(flag) {
          options, k := Switched(options, flag), k + 1;
        } else if k + 1 == |words| {
          return Err;
        } else {
          assert words[k..][2..] == words[k + 2..];
          var given := Given(options, flag, words[k + 1], reachable);
          if given.Err? {
            return Err;
          }
          options, k := given.value, k + 2;
        }
    }
    read := Ok(options);
  }

  // ----- the extra renderings -------------------------------------------------------

  datatype Rendering = Rendering(out: string, section: Option<string>, fileMode: Option<nat>)

  datatype Fields = Fields(out: Option<string>, section: Option<string>, fileMode: Option<nat>)

  function ReadField(fields: Fields, field: string): Result<Fields> {
    match SplitOnce(field, '=')
    case None => Err
    case Some((name, value)) =>
      var name := Trim(name);
      if name == "out" then Ok(fields.(out := Some(value)))
      else if name == "section" then Ok(fields.(section := Some(value)))
      else if name == "mode" then
        (match Unsigned(if "0o" <= value then value[2..] else value, 8, U32)
         case None => Err
         case Some(mode) => Ok(fields.(fileMode := Some(mode))))
      else Err
  }

  function ReadFields(fields: Fields, texts: seq<string>): Result<Fields>
    decreases |texts|
  {
    if texts == [] then Ok(fields)
    else
      var next :- ReadField(fields, texts[0]);
      ReadFields(next, texts[1..])
  }

  /** `Rendering::parse`; `known` says which extensions name a format, and a field that is not
      there falls to the main render's permissions. */
  function ReadRendering(text: string, mode: Option<nat>, known: string -> bool): Result<Rendering> {
    var fields :- ReadFields(Fields(None, None, mode), Split(text, ','));
    if fields.out.None? || !known(fields.out.value) then Err
    else Ok(Rendering(fields.out.value, fields.section, fields.fileMode))
  }

  method ParseRendering(text: string, mode: Option<nat>, known: string -> bool) returns (read: Result<Rendering>)
    ensures read == ReadRendering(text, mode, known)
  {
    hide ReadField;
    var texts := Split(text, ',');
    var fields := Fields(None, None, mode);
    for k := 0 to |texts|
      invariant ReadFields(Fields(None, None, mode), texts) == ReadFields(fields, texts[k..])
    {
      assert texts[k..][0] == texts[k] && texts[k..][1..] == texts[k + 1..];
      var next := ReadField(fields, texts[k]);
      if next.Err? {
        return Err;
      }
      fields := next.value;
    }
    if fields.out.None? || !known(fields.out.value) {
      return Err;
    }
    read := Ok(Rendering(fields.out.value, fields.section, fields.fileMode));
  }

  /** What the agent runs with. */
  datatype Spec = Spec(options: Options, also: seq<Rendering>)

  function ModeOf(options: Options): Option<nat> {
    if FileMode in options.values && options.values[FileMode].Count? then Some(options.values[FileMode].n) else None
  }

  function ReadRenderings(texts: seq<string>, mode: Option<nat>, known: string -> bool): Result<seq<Rendering>> {
    Traverse((text: string) => ReadRendering(text, mode, known), texts)
  }

  /** The required flags, and the renderings read once the permissions are settled. */
  function Settled(options: Options, known: string -> bool): Result<Spec> {
    if Source !in options.values || Endpoint !in options.values || Key !in options.values || Out !in options.values
    then Err
    else
      var also :- ReadRenderings(options.also, ModeOf(options), known);
      Ok(Spec(options, also))
  }

  // ----- what is refused before anything is fetched ---------------------------------

  /** The optional flags the last check asks about. */
  function Asked(): set<Flag> {
    {TlsCert, TlsKey, Reference, SshKey, ApiUrl, Namespace, Template, TemplateInline, AuthMount, AuthRole, AuthUsername}
  }

  /** What the last check looks at: `given` are the flags among those it asks about that
      were given a value. */
  datatype View = View(
    source: string,
    key: string,
    out: string,
    auth: Option<string>,
    token: bool,
    password: bool,
    given: set<Flag>)

  function TextAt(options: Options, flag: Flag): Option<string> {
    if flag in options.values && options.values[flag].Word? then Some(options.values[flag].text) else None
  }

  /** The password comes from the environment and has no flag. */
  function ViewOf(options: Options, password: bool): View {
    View(TextAt(options, Source).GetOr(""), TextAt(options, Key).GetOr(""), TextAt(options, Out).GetOr(""),
         TextAt(options, Auth), Token in options.values, password, options.values.Keys * Asked())
  }

  /** `validated_auth`: what each store's way of proving itself needs. */
  predicate AuthValid(v: View) {
    var auth := v.auth.GetOr("");
    if v.source == "consul" then
      v.auth.None? || (auth == "token" && v.token) || (auth == "kubernetes" && AuthMount in v.given) ||
      (auth == "jwt" && AuthMount in v.given && v.token)
    else if v.source == "vault" then
      ((v.auth.None? || auth == "token") && v.token) || (auth == "kubernetes" && AuthRole in v.given) ||
      (auth == "approle" && AuthRole in v.given && v.password) || (auth == "jwt" && v.token) ||
      ((auth == "userpass" || auth == "ldap") && AuthUsername in v.given && v.password) ||
      (auth == "cert" && TlsCert in v.given)
    else if v.source == "config-server" then v.auth.None? || auth == "kubernetes"
    else if v.source == "firestore" then
      v.auth.None? || auth == "metadata-server" || auth == "emulator" || (auth == "access-token" && v.token)
    else if v.source == "git" then
      v.auth.None? || auth == "anonymous" || auth == "ssh" || (auth == "token" && v.token) ||
      (auth == "ssh-key" && SshKey in v.given)
    else if v.source == "etcd" then v.auth.None? && (AuthUsername in v.given ==> v.password)
    else if v.source == "nats" then v.auth.None? && !Free(v.key, '/')
    else (v.source == "s3" || v.source == "redis") && v.auth.None?
  }

  /** `validated`: a known store, flags that belong to it, whole pairs, one template, and an
      extension that names a format unless a template owns the bytes. */
  predicate Valid(v: View, known: string -> bool) {
    && (TlsCert in v.given <==> TlsKey in v.given)
    && (Reference in v.given ==> v.source == "git")
    && (SshKey in v.given ==> v.source == "git")
    && (ApiUrl in v.given ==> v.source == "firestore" || v.source == "s3")
    && (Namespace in v.given ==> v.source == "vault")
    && AuthValid(v)
    && !(Template in v.given && TemplateInline in v.given)
    && (Template in v.given || TemplateInline in v.given || known(v.out))
  }

  /** `from_args`, with what the environment supplies. */
  function FromArgs(environment: Options, password: bool, words: seq<string>, reachable: string -> bool,
                    known: string -> bool): Result<Spec>
  {
    var options :- Parse(environment, words, reachable);
    var spec :- Settled(options, known);
    if Valid(ViewOf(options, password), known) then Ok(spec) else Err
  }

  // ----- what is read, and what is refused ------------------------------------------

  /** The flags that take a number take these, and an interval of zero is a second. */
  lemma NumbersReadExactly(text: string, reading: Reading, reachable: string -> bool)
    ensures Read(Watch, text, reachable) == Ok(reading) <==>
              match Unsigned(text, 10, 0x1_0000_0000_0000_0000) {
                case None => false
                case Some(seconds) => reading == Count(if seconds == 0 then 1 else seconds)
              }
    ensures forall flag :: flag in {Timeout, MaxStaleness, RevokeGrace} ==>
              (Read(flag, text, reachable) == Ok(reading) <==>
                 reading.Count? && reading.n > 0 && Unsigned(text, 10, 0x1_0000_0000_0000_0000) == Some(reading.n))
    ensures Read(MaxDocumentBytes, text, reachable) == Ok(reading) <==>
              reading.Count? && Unsigned(text, 10, 0x1_0000_0000_0000_0000) == Some(reading.n)
    ensures Read(History, text, reachable) == Ok(reading) <==>
              reading.Count? && reading.n <= 10 && Unsigned(text, 10, 0x1_0000_0000_0000_0000) == Some(reading.n)
    ensures Read(FileMode, text, reachable) == Ok(reading) <==>
              reading.Count? && reading.n < 512 && (reading.n / 256) % 2 == 1 &&
              Unsigned(if "0o" <= text then text[2..] else text, 8, 0x1_0000_0000) == Some(reading.n)
  {
    hide Digits;
  }

  /** Three policies take their own words and no other, an address to notify is one that may
      be reached, and every other flag takes any text. */
  lemma WordsReadExactly(flag: Flag, text: string, reading: Reading, reachable: string -> bool)
    requires flag !in {Watch, Timeout, MaxStaleness, RevokeGrace, MaxDocumentBytes, History, FileMode}
    ensures Read(flag, text, reachable) == Ok(reading) <==>
              && reading == Word(text)
              && (flag == StartupPolicy ==> text in {"allow-cached", "require-fresh", "best-effort"})
              && (flag == OnDelete ==> text in {"retain", "remove", "fail"})
              && (flag == OnDrift ==> text in {"warn", "repair", "fail"})
              && (flag == NotifyHttp ==> reachable(text))
  {
  }

  lemma {:induction false} ParseMore(options: Options, words: seq<string>, more: seq<string>, reachable: string -> bool)
    requires Parse(options, words, reachable).Ok?
    ensures Parse(options, words + more, reachable) == Parse(Parse(options, words, reachable).value, more, reachable)
    decreases |words|
  {
    hide FlagOf, Read;
    if words == [] {
      assert words + more == more;
    } else {
      assert (words + more)[1..] == words[1..] + more;
      var flag := FlagOf(words[0]).value;
      if IsBare(flag) {
        ParseMore(Switched(options, flag), words[1..], more, reachable);
      } else {
        assert (words + more)[2..] == words[2..] + more && (words + more)[1] == words[1];
        ParseMore(Given(options, flag, words[1], reachable).value, words[2..], more, reachable);
      }
    }
  }

  lemma OneMore(options: Options, flag: Flag, text: string, reachable: string -> bool)
    ensures IsBare(flag) ==> Parse(options, [Name(flag)], reachable) == Ok(Switched(options, flag))
    ensures !IsBare(flag) ==> Parse(options, [Name(flag)], reachable) == Err
    ensures !IsBare(flag) ==> Parse(options, [Name(flag), text], reachable) == Given(options, flag, text, reachable)
  {
    FlagNamed(flag, Name(flag));
    hide FlagOf, Name, Read;
    assert [Name(flag)][1..] == [] && [Name(flag), text][2..] == [];
    assert forall given :: Parse(given, [], reachable) == Ok(given);
  }

  /** A command line that is read so far, and one flag more: a value takes the place of the
      one before, another rendering is added, a switch is thrown, `--one-shot` takes the
      watch back, and a flag whose value is not there is refused. */
  lemma LastWins(environment: Options, words: seq<string>, flag: Flag, text: string, reachable: string -> bool)
    requires Parse(environment, words, reachable).Ok?
    ensures var before := Parse(environment, words, reachable).value;
            && (flag == OneShot ==>
                  Parse(environment, words + ["--one-shot"], reachable) == Ok(before.(values := before.values - {Watch})))
            && (flag in {NoTlsReload, RequireAck, Events, Meta, Dynamic, NoRevokeOnShutdown, TlsSkipVerify} ==>
                  Parse(environment, words + [Name(flag)], reachable) ==
                    Ok(before.(switches := before.switches + {flag})))
            && (flag == Also ==>
                  Parse(environment, words + ["--also", text], reachable) == Ok(before.(also := before.also + [text])))
            && (!IsBare(flag) ==> Parse(environment, words + [Name(flag)], reachable) == Err)
            && (!IsBare(flag) && flag != Also ==>
                  Parse(environment, words + [Name(flag), text], reachable) ==
                    match Read(flag, text, reachable) {
                      case Ok(reading) => Ok(before.(values := before.values[flag := reading]))
                      case Err => Err
                    })
  {
    hide Parse, Read, FlagOf;
    var before := Parse(environment, words, reachable).value;
    assert Name(OneShot) == "--one-shot" && Name(Also) == "--also";
    hide Name;
    OneMore(before, flag, text, reachable);
    ParseMore(environment, words, [Name(flag)], reachable);
    ParseMore(environment, words, [Name(flag), text], reachable);
  }

  /** A word that is no flag's name is refused, wherever a flag is expected. */
  lemma UnknownRefused(environment: Options, words: seq<string>, word: string, more: seq<string>, reachable: string -> bool)
    requires Parse(environment, words, reachable).Ok? && forall flag :: word != Name(flag)
    ensures Parse(environment, words + [word] + more, reachable) == Err
  {
    if FlagOf(word).Some? {
      FlagNamed(FlagOf(word).value, word);
    }
    hide FlagOf, Name;
    ParseMore(environment, words, [word] + more, reachable);
    assert words + [word] + more == words + ([word] + more);
  }

  /** What a way of proving itself to a store needs. */
  datatype Need = NeedsToken | NeedsPassword | Needs(flag: Flag)

  /** The ways there are to each store, and none is the store's own default. */
  const WAYS: map<(string, Option<string>), set<Need>> := map[
    ("consul", None) := {}, ("consul", Some("token")) := {NeedsToken},
    ("consul", Some("kubernetes")) := {Needs(AuthMount)}, ("consul", Some("jwt")) := {Needs(AuthMount), NeedsToken},
    ("vault", None) := {NeedsToken}, ("vault", Some("token")) := {NeedsToken}, ("vault", Some("jwt")) := {NeedsToken},
    ("vault", Some("kubernetes")) := {Needs(AuthRole)}, ("vault", Some("approle")) := {Needs(AuthRole), NeedsPassword},
    ("vault", Some("userpass")) := {Needs(AuthUsername), NeedsPassword},
    ("vault", Some("ldap")) := {Needs(AuthUsername), NeedsPassword}, ("vault", Some("cert")) := {Needs(TlsCert)},
    ("config-server", None) := {}, ("config-server", Some("kubernetes")) := {},
    ("firestore", None) := {}, ("firestore", Some("metadata-server")) := {}, ("firestore", Some("emulator")) := {},
    ("firestore", Some("access-token")) := {NeedsToken},
    ("git", None) := {}, ("git", Some("anonymous")) := {}, ("git", Some("ssh")) := {},
    ("git", Some("token")) := {NeedsToken}, ("git", Some("ssh-key")) := {Needs(SshKey)},
    ("etcd", None) := {}, ("nats", None) := {}, ("s3", None) := {}, ("redis", None) := {}]

  predicate Meets(v: View, need: Need) {
    match need
    case NeedsToken => v.token
    case NeedsPassword => v.password
    case Needs(flag) => flag in v.given
  }

  /** A store is reached exactly in one of its ways, with what that way needs; beside that a
      user of etcd needs a password, and a key of nats is a bucket's. */
  lemma AuthExactly(v: View)
    ensures AuthValid(v) <==>
              && (v.source, v.auth) in WAYS
              && (forall need :: need in WAYS[(v.source, v.auth)] ==> Meets(v, need))
              && (v.source == "etcd" && AuthUsername in v.given ==> v.password)
              && (v.source == "nats" ==> '/' in v.key)
  {
  }

  /** What is refused although every flag was read. */
  lemma RefusedExactly(v: View, known: string -> bool)
    ensures !Valid(v, known) <==>
              || (TlsCert in v.given && TlsKey !in v.given) || (TlsKey in v.given && TlsCert !in v.given)
              || (v.source != "git" && (Reference in v.given || SshKey in v.given))
              || (v.source != "vault" && Namespace in v.given)
              || (v.source !in {"firestore", "s3"} && ApiUrl in v.given)
              || !AuthValid(v)
              || (Template in v.given && TemplateInline in v.given)
              || (Template !in v.given && TemplateInline !in v.given && !known(v.out))
  {
    hide AuthValid;
  }

  /** The agent starts exactly when its words are read, it has been told a store, an address,
      a key and a file, each extra rendering can be read, and nothing is refused. */
  lemma StartsExactly(environment: Options, password: bool, words: seq<string>, reachable: string -> bool, known: string -> bool)
    ensures FromArgs(environment, password, words, reachable, known).Ok? <==>
              && Parse(environment, words, reachable).Ok?
              && var options := Parse(environment, words, reachable).value;
                 && {Source, Endpoint, Key, Out} <= options.values.Keys
                 && ReadRenderings(options.also, ModeOf(options), known).Ok?
                 && Valid(ViewOf(options, password), known)
    ensures forall flag :: flag in Asked() <==>
              flag in {TlsCert, TlsKey, Reference, SshKey, ApiUrl, Namespace, Template, TemplateInline, AuthMount, AuthRole,
                       AuthUsername}
  {
    hide Parse, Valid, ReadRenderings;
  }

  /** An extra rendering is read exactly when each of its fields is `out`, `section` or `mode`,
      a mode is in octal, and the file it names has an extension that names a format. */
  lemma FieldReadsExactly(fields: Fields, name: string, value: string)
    requires Free(name, '=') && Trim(name) == name
    ensures ReadField(fields, name + ['='] + value) ==
              if name == "out" then Ok(fields.(out := Some(value)))
              else if name == "section" then Ok(fields.(section := Some(value)))
              else if name == "mode" then
                match Unsigned(if "0o" <= value then value[2..] else value, 8, 0x1_0000_0000) {
                  case Some(mode) => Ok(fields.(fileMode := Some(mode)))
                  case None => Err
                }
              else Err
    ensures forall field :: Free(field, '=') ==> ReadField(fields, field) == Err
  {
    hide Unsigned;
    SplitAt(name, '=', value);
    hide SplitOnce, Split, Trim;
  }
}
