/** The installation's grammar of groups: what the document printer writes and the webhook
    reads back. */
module Grammar {
  import opened Wrappers
  import opened Text

  /** A value of the installation document; a map keeps its entries in order. */
  datatype Value =
    | Nothing
    | Bool(truth: bool)
    | Integer(number: int)
    | Float
    | Word(text: string)
    | List(items: seq<Value>)
    | Map(entries: seq<Entry>)

  datatype Entry = Entry(key: string, value: Value)

  /** Names under one namespace. */
  datatype Group = Group(namespace: string, names: seq<string>)

  function Sources(): seq<string> {
    ["consul", "vault", "config-server", "firestore", "git", "redis", "etcd", "nats", "s3"]
  }

  // ----- trimmed pieces -------------------------------------------------------------

  /** A piece the grammar can carry between separators. */
  predicate Piece(text: string, c: char) {
    text != "" && Trimmed(text) && Free(text, c)
  }

  /** `map(trim).filter(nonempty)`. */
  function Kept(parts: seq<string>): seq<string> {
    if parts == [] then []
    else if Trim(parts[0]) == "" then Kept(parts[1..])
    else [Trim(parts[0])] + Kept(parts[1..])
  }

  function Parts(text: string, c: char): seq<string> {
    Kept(Split(text, c))
  }

  method PartsOf(text: string, c: char) returns (pieces: seq<string>)
    ensures pieces == Parts(text, c)
  {
    var parts := Split(text, c);
    pieces := [];
    for k := 0 to |parts|
      invariant pieces + Kept(parts[k..]) == Kept(parts)
    {
      var piece := Trim(parts[k]);
      assert parts[k..][0] == parts[k] && parts[k..][1..] == parts[k + 1..];
      if piece != "" {
        assert pieces + ([piece] + Kept(parts[k + 1..])) == pieces + [piece] + Kept(parts[k + 1..]);
        pieces := pieces + [piece];
      }
    }
  }

  lemma {:induction false} KeptPieces(parts: seq<string>, c: char)
    requires forall k :: 0 <= k < |parts| ==> Free(parts[k], c)
    ensures forall k :: 0 <= k < |Kept(parts)| ==> Piece(Kept(parts)[k], c)
  {
    if parts != [] {
      TrimKeepsFree(parts[0], c);
      KeptPieces(parts[1..], c);
    }
  }

  ghost predicate Pieces(parts: seq<string>, c: char) {
    parts == [] || (Piece(parts[0], c) && Pieces(parts[1..], c))
  }

  lemma {:induction false} PiecesEach(parts: seq<string>, c: char)
    ensures Pieces(parts, c) <==> forall k :: 0 <= k < |parts| ==> Piece(parts[k], c)
  {
    hide Piece;
    if parts != [] {
      PiecesEach(parts[1..], c);
    }
  }

  lemma {:induction false} KeptStays(parts: seq<string>, pad: string, c: char)
    requires Spaces(pad) && Pieces(parts, c)
    ensures Kept(Padded(pad, parts)) == parts
  {
    hide Trim, Piece, Spaces;
    if parts != [] {
      KeptStays(parts[1..], pad, c);
      PieceStays(parts[0], pad, c);
      hide Kept, Pieces;
      KeptFirst(pad + parts[0], Padded(pad, parts[1..]));
      assert [parts[0]] + parts[1..] == parts;
    }
  }

  lemma SplitKeepsFree(text: string, c: char, d: char)
    requires Free(text, d)
    ensures forall k :: 0 <= k < |Split(text, c)| ==> Free(Split(text, c)[k], d)
  {
  }

  /** What comes out of the grammar is always trimmed, and holds neither this separator nor
      one that was not in the text. */
  lemma PartsArePieces(text: string, c: char, d: char)
    requires Free(text, d)
    ensures forall k :: 0 <= k < |Parts(text, c)| ==> Piece(Parts(text, c)[k], c) && Piece(Parts(text, c)[k], d)
  {
    SplitKeepsFree(text, c, d);
    KeptPieces(Split(text, c), c);
    KeptPieces(Split(text, c), d);
  }

  /** A leading space changes nothing. */
  lemma PartsSpaced(text: string, c: char)
    requires c != ' '
    ensures Parts(" " + text, c) == Parts(text, c)
  {
    var parts := Split(text, c);
    SplitPadded(" ", text, c);
    assert (" " + parts[0])[1..] == parts[0];
    assert Split(" " + text, c) == [" " + parts[0]] + parts[1..];
    assert parts == [parts[0]] + parts[1..];
  }

  predicate Spaces(pad: string) {
    forall x :: x in pad ==> IsSpace(x)
  }

  lemma SpacesAre()
    ensures Spaces("") && Spaces(" ")
  {
  }

  lemma KeptFirst(first: string, rest: seq<string>)
    requires Trim(first) != ""
    ensures Kept([first] + rest) == [Trim(first)] + Kept(rest)
  {
    hide Trim;
    assert ([first] + rest)[1..] == rest;
  }

  /** What a split of joined pieces gives, trimmed. */
  lemma KeptJoined(parts: seq<string>, c: char)
    requires parts != [] && Pieces(parts, c)
    ensures Kept([parts[0]] + Padded(" ", parts[1..])) == parts
  {
    hide Kept, Padded, Trim, Spaces, Piece;
    SpacesAre();
    PieceStays(parts[0], "", c);
    KeptStays(parts[1..], " ", c);
    hide Pieces;
    assert "" + parts[0] == parts[0];
    KeptFirst(parts[0], Padded(" ", parts[1..]));
    assert [parts[0]] + parts[1..] == parts;
  }

  lemma PieceStays(text: string, pad: string, c: char)
    requires Piece(text, c) && Spaces(pad)
    ensures Trim(pad + text) == text != ""
  {
    TrimmedStays(text, pad);
  }

  lemma PartsJoin(parts: seq<string>, c: char)
    requires c != ' '
    requires forall k :: 0 <= k < |parts| ==> Piece(parts[k], c)
    ensures Parts(Join(parts, [c] + " "), c) == parts
  {
    if parts == [] {
      assert Split("", c) == [""] && Trim("") == "";
      assert Kept([""]) == Kept([""][1..]);
    } else {
      forall k | 0 <= k < |parts| ensures Free(parts[k], c) {
        assert Piece(parts[k], c);
      }
      PiecesEach(parts, c);
      KeptJoined(parts, c);
      hide Split, Join, Kept, Piece;
      SplitJoin(parts, c, " ");
    }
  }

  /** Pieces, printed and read, come back exactly when they are pieces. */
  lemma PartsReadBackExactly(parts: seq<string>, c: char)
    requires c != ' '
    ensures Parts(Join(parts, [c] + " "), c) == parts <==>
              forall k :: 0 <= k < |parts| ==> Piece(parts[k], c)
  {
    if forall k :: 0 <= k < |parts| ==> Piece(parts[k], c) {
      PartsJoin(parts, c);
    } else {
      KeptPieces(Split(Join(parts, [c] + " "), c), c);
    }
  }

  /** Joined text ends as its last part does. */
  lemma {:induction false} JoinEnds(parts: seq<string>, separator: string)
    requires parts != [] && parts[|parts| - 1] != ""
    ensures var joined, last := Join(parts, separator), parts[|parts| - 1];
            joined != "" && joined[|joined| - 1] == last[|last| - 1]
  {
    if |parts| > 1 {
      JoinEnds(parts[1..], separator);
    }
  }

  // ----- lists of names -------------------------------------------------------------

  function ScalarText(value: Value): Result<string> {
    match value
    case Word(text) => Ok(text)
    case Integer(number) => Ok(if number < 0 then "-" + Decimal(-number) else Decimal(number))
    case Bool(truth) => Ok(if truth then "true" else "false")
    case _ => Err
  }

  /** A scalar's text says which it was: the two words of a switch, and digits that read back,
      behind a minus where the number is negative; nothing else has a text. */
  lemma ScalarTextExactly(value: Value)
    ensures value.Word? ==> ScalarText(value) == Ok(value.text)
    ensures ScalarText(Bool(true)) == Ok("true") && ScalarText(Bool(false)) == Ok("false")
    ensures value.Integer? ==>
              ScalarText(value).Ok? &&
              var text := ScalarText(value).value;
              if value.number < 0 then
                text != "" && text[0] == '-' && Digits(text[1..], 10) == Some(-value.number)
              else Digits(text, 10) == Some(value.number)
    ensures ScalarText(value).Ok? <==> value.Word? || value.Integer? || value.Bool?
  {
    if value.Integer? {
      NumeralReads(if value.number < 0 then -value.number else value.number, 10);
    }
  }

  function NamesOf(items: seq<Value>): Result<seq<string>> {
    Traverse(ScalarText, items)
  }

  function GroupOf(entry: Entry): Result<Group> {
    if !entry.value.List? then Err
    else
      var names :- NamesOf(entry.value.items);
      Ok(Group(entry.key, names))
  }

  /** The groups a document's map stands for. */
  function GroupsOf(entries: seq<Entry>): Result<seq<Group>> {
    Traverse(GroupOf, entries)
  }

  function PrintGroup(group: Group): string {
    group.namespace + ": " + Join(group.names, ", ")
  }

  function Printed(groups: seq<Group>): (texts: seq<string>)
    ensures |texts| == |groups|
    ensures forall k :: 0 <= k < |groups| ==> texts[k] == PrintGroup(groups[k])
  {
    if groups == [] then [] else [PrintGroup(groups[0])] + Printed(groups[1..])
  }

  function Print(groups: seq<Group>): string {
    Join(Printed(groups), "; ")
  }

  method Names(items: seq<Value>) returns (names: Result<seq<string>>)
    ensures names == NamesOf(items)
  {
    var texts: seq<string> := [];
    for k := 0 to |items|
      invariant |texts| == k && forall j :: 0 <= j < k ==> ScalarText(items[j]) == Ok(texts[j])
    {
      var text := ScalarText(items[k]);
      if text.Err? {
        return Err;
      }
      texts := texts + [text.value];
    }
    assert texts == NamesOf(items).value;
    names := Ok(texts);
  }

  /** `lists`: a map of namespace to names, as one string. */
  method Lists(value: Value) returns (text: Result<string>)
    ensures text.Ok? <==> value.Map? && GroupsOf(value.entries).Ok?
    ensures text.Ok? ==> text.value == Print(GroupsOf(value.entries).value)
  {
    if !value.Map? {
      return Err;
    }
    hide NamesOf, PrintGroup, Join;
    var entries := value.entries;
    var texts: seq<string> := [];
    for k := 0 to |entries|
      invariant |texts| == k
      invariant forall j :: 0 <= j < k ==> GroupOf(entries[j]).Ok? && texts[j] == PrintGroup(GroupOf(entries[j]).value)
    {
      if !entries[k].value.List? {
        return Err;
      }
      var names := Names(entries[k].value.items);
      if names.Err? {
        return Err;
      }
      texts := texts + [PrintGroup(Group(entries[k].key, names.value))];
    }
    assert texts == Printed(GroupsOf(entries).value);
    text := Ok(Join(texts, "; "));
  }

  /** `"*"`, or lower-case letters, digits and dashes. */
  predicate NamespaceOk(namespace: string) {
    namespace == "*" ||
    (namespace != "" && forall c :: c in namespace ==> 'a' <= c <= 'z' || '0' <= c <= '9' || c == '-')
  }

  predicate NameOk(name: string, valid: string -> bool) {
    name == "*" || valid(name)
  }

  /** The namespace a group is for, and the rest of it. */
  function Head(group: string): (string, string) {
    match SplitOnce(group, ':')
    case Some((before, after)) => (Trim(before), after)
    case None => ("*", group)
  }

  /** A group without a colon is for every namespace, and is then all names. */
  lemma HeadExactly(namespace: string, names: string)
    requires Free(namespace, ':')
    ensures Head(namespace + [':'] + names) == (Trim(namespace), names)
    ensures Free(names, ':') ==> Head(names) == ("*", names)
  {
    SplitAt(namespace, ':', names);
  }

  function ParseGroup(group: string, valid: string -> bool): Result<Group> {
    var (namespace, names) := Head(group);
    var list := Parts(names, ',');
    if NamespaceOk(namespace) && list != [] && forall k :: 0 <= k < |list| ==> NameOk(list[k], valid)
    then Ok(Group(namespace, list))
    else Err
  }

  /** What `ScopedNames::parse` reads. */
  function Parse(spec: string, valid: string -> bool): Result<seq<Group>> {
    Traverse((group: string) => ParseGroup(group, valid), Parts(spec, ';'))
  }

  lemma ParseEach(spec: string, valid: string -> bool)
    ensures var texts, read := Parts(spec, ';'), Parse(spec, valid);
            && (read.Ok? <==> forall k :: 0 <= k < |texts| ==> ParseGroup(texts[k], valid).Ok?)
            && (read.Ok? ==> |read.value| == |texts|)
            && (read.Ok? ==> forall k :: 0 <= k < |texts| ==> ParseGroup(texts[k], valid) == Ok(read.value[k]))
  {
    hide ParseGroup, Parts;
    var each := (group: string) => ParseGroup(group, valid);
    assert forall text :: each(text) == ParseGroup(text, valid);
    assert Parse(spec, valid) == Traverse(each, Parts(spec, ';'));
  }

  method ReadGroup(group: string, valid: string -> bool) returns (read: Result<Group>)
    ensures read == ParseGroup(group, valid)
  {
    hide Parts, Head, NamespaceOk, NameOk;
    var (namespace, names) := Head(group);
    if !NamespaceOk(namespace) {
      return Err;
    }
    var list := PartsOf(names, ',');
    for k := 0 to |list|
      invariant forall j :: 0 <= j < k ==> NameOk(list[j], valid)
    {
      if !NameOk(list[k], valid) {
        return Err;
      }
    }
    if list == [] {
      return Err;
    }
    read := Ok(Group(namespace, list));
  }

  /** `ScopedNames::parse`. */
  method ScopedNames(spec: string, valid: string -> bool) returns (read: Result<seq<Group>>)
    ensures read == Parse(spec, valid)
  {
    hide ParseGroup, Parts;
    var texts := PartsOf(spec, ';');
    ParseEach(spec, valid);
    hide Parse;
    var groups: seq<Group> := [];
    for k := 0 to |texts|
      invariant |groups| == k && forall j :: 0 <= j < k ==> ParseGroup(texts[j], valid) == Ok(groups[j])
    {
      var group := ReadGroup(texts[k], valid);
      if group.Err? {
        return Err;
      }
      groups := groups + [group.value];
    }
    assert groups == Parse(spec, valid).value;
    read := Ok(groups);
  }

  /** A group the grammar can carry and the gate accepts. */
  predicate CleanGroup(group: Group, valid: string -> bool) {
    && NamespaceOk(group.namespace)
    && group.names != []
    && (forall k :: 0 <= k < |group.names| ==> CleanName(group.names[k], valid))
  }

  predicate CleanName(name: string, valid: string -> bool) {
    Piece(name, ',') && Free(name, ';') && NameOk(name, valid)
  }

  lemma NamespacePlain(namespace: string)
    requires NamespaceOk(namespace)
    ensures namespace != "" && Trimmed(namespace) && Trim(namespace) == namespace
    ensures Free(namespace, ':') && Free(namespace, ';')
  {
    hide Trim;
    var last := namespace[|namespace| - 1];
    assert namespace == "*" || (namespace[0] in namespace && last in namespace);
    assert Trimmed(namespace);
    TrimmedStays(namespace, "");
  }

  lemma CleanNames(group: Group, valid: string -> bool)
    requires CleanGroup(group, valid)
    ensures Parts(" " + Join(group.names, ", "), ',') == group.names
    ensures Free(Join(group.names, ", "), ';')
  {
    NamesReadBack(group.names);
  }

  lemma NamesReadBack(names: seq<string>)
    requires forall k :: 0 <= k < |names| ==> Piece(names[k], ',') && Free(names[k], ';')
    ensures Parts(" " + Join(names, ", "), ',') == names
    ensures Free(Join(names, ", "), ';')
  {
    hide Parts, Join;
    assert Free(", ", ';');
    hide Free, Piece;
    var comma := [','] + " ";
    assert comma == ", ";
    PartsJoin(names, ',');
    PartsSpaced(Join(names, ", "), ',');
    JoinKeepsFree(names, ", ", ';');
  }

  lemma HeadOf(namespace: string, text: string)
    requires NamespaceOk(namespace)
    ensures Head(namespace + [':'] + text) == (namespace, text)
  {
    NamespacePlain(namespace);
    hide Trim, Trimmed, NamespaceOk, SplitOnce;
    SplitAt(namespace, ':', text);
  }

  lemma GroupReadsBack(group: Group, valid: string -> bool)
    requires CleanGroup(group, valid)
    ensures ParseGroup(PrintGroup(group), valid) == Ok(group)
  {
    hide Parts, Join, Head, NamespaceOk, NameOk, Piece, Free;
    var names := " " + Join(group.names, ", ");
    HeadOf(group.namespace, names);
    CleanNames(group, valid);
    assert PrintGroup(group) == group.namespace + [':'] + names;
    forall k | 0 <= k < |group.names| ensures NameOk(group.names[k], valid) {
      assert CleanName(group.names[k], valid);
    }
  }

  lemma PrintedIsPiece(group: Group, valid: string -> bool)
    requires CleanGroup(group, valid)
    ensures Piece(PrintGroup(group), ';')
  {
    NamespacePlain(group.namespace);
    CleanNames(group, valid);
    hide Join, Parts, Trim, NamespaceOk, CleanName, CleanGroup;
    var last := group.names[|group.names| - 1];
    assert Piece(last, ',');
    JoinEnds(group.names, ", ");
    GluedIsPiece(group.namespace, Join(group.names, ", "), last, ';');
  }

  lemma GluedIsPiece(before: string, after: string, last: string, c: char)
    requires before != "" && after != "" && last != "" && Trimmed(before) && Trimmed(last)
    requires after[|after| - 1] == last[|last| - 1]
    requires Free(before, c) && Free(after, c) && c != ':' && c != ' '
    ensures Piece(before + ": " + after, c)
  {
    hide IsSpace;
    var text := before + ": " + after;
    assert text[0] == before[0] && text[|text| - 1] == after[|after| - 1];
  }

  lemma PieceIsFree(text: string, c: char)
    requires Piece(text, c)
    ensures Free(text, c)
  {
  }

  lemma ParsedGroupClean(text: string, valid: string -> bool)
    requires Free(text, ';') && ParseGroup(text, valid).Ok?
    ensures CleanGroup(ParseGroup(text, valid).value, valid)
  {
    hide Parts, SplitOnce, Trim, NamespaceOk, Piece;
    var (_, names) := Head(text);
    assert Free(names, ';');
    PartsArePieces(names, ',', ';');
    hide Head;
    var group := ParseGroup(text, valid).value;
    assert group.names == Parts(names, ',');
    forall k | 0 <= k < |group.names| ensures CleanName(group.names[k], valid) {
      assert Piece(group.names[k], ',') && Piece(group.names[k], ';') && NameOk(group.names[k], valid);
      PieceIsFree(group.names[k], ';');
    }
  }

  /** Printer and parser undo each other exactly on the documents whose namespaces are
      namespaces and whose groups each hold at least one valid, trimmed name that is free of
      the grammar's delimiters. */
  lemma PrintParsesExactly(groups: seq<Group>, valid: string -> bool)
    ensures Parse(Print(groups), valid) == Ok(groups) <==>
              forall k :: 0 <= k < |groups| ==> CleanGroup(groups[k], valid)
  {
    hide CleanGroup, PrintGroup, ParseGroup, Trim, Parse;
    ParseEach(Print(groups), valid);
    if forall k :: 0 <= k < |groups| ==> CleanGroup(groups[k], valid) {
      forall k | 0 <= k < |groups| ensures Piece(Printed(groups)[k], ';') {
        PrintedIsPiece(groups[k], valid);
      }
      PartsJoin(Printed(groups), ';');
      assert [';'] + " " == "; ";
      forall k | 0 <= k < |groups| ensures ParseGroup(Printed(groups)[k], valid) == Ok(groups[k]) {
        GroupReadsBack(groups[k], valid);
      }
      assert Parse(Print(groups), valid).value == groups;
    } else if Parse(Print(groups), valid) == Ok(groups) {
      var texts := Parts(Print(groups), ';');
      KeptPieces(Split(Print(groups), ';'), ';');
      forall k | 0 <= k < |groups| ensures CleanGroup(groups[k], valid) {
        assert Piece(texts[k], ';') && ParseGroup(texts[k], valid) == Ok(groups[k]);
        ParsedGroupClean(texts[k], valid);
      }
    }
  }

  // ----- the gates ------------------------------------------------------------------

  /** `env_names`: UPPER_SNAKE, with an optional `*` at the end. */
  predicate EnvName(name: string) {
    var stem := if name != "" && name[|name| - 1] == '*' then name[..|name| - 1] else name;
    && stem != "" && !('0' <= stem[0] <= '9')
    && forall c :: c in stem ==> 'A' <= c <= 'Z' || '0' <= c <= '9' || c == '_'
  }

  /** It begins with a capital or an underscore, goes on with those and digits, and may end in
      one star. */
  lemma EnvNameExactly(name: string)
    ensures EnvName(name) <==>
              exists stem :: stem != "" && (name == stem || name == stem + "*") &&
                ('A' <= stem[0] <= 'Z' || stem[0] == '_') &&
                forall k :: 0 < k < |stem| ==> 'A' <= stem[k] <= 'Z' || '0' <= stem[k] <= '9' || stem[k] == '_'
  {
    if EnvName(name) {
      var stem := if name != "" && name[|name| - 1] == '*' then name[..|name| - 1] else name;
      assert name == stem || name == stem + "*";
      assert forall k :: 0 <= k < |stem| ==> stem[k] in stem;
    }
    if stem :| stem != "" && (name == stem || name == stem + "*") &&
               ('A' <= stem[0] <= 'Z' || stem[0] == '_') &&
               forall k :: 0 < k < |stem| ==> 'A' <= stem[k] <= 'Z' || '0' <= stem[k] <= '9' || stem[k] == '_' {
      assert name[..|stem|] == stem;
      assert forall c :: c in stem ==> 'A' <= c <= 'Z' || '0' <= c <= '9' || c == '_';
    }
  }

  /** The stores a gate may name are the nine. */
  lemma SourceNameExactly(name: string)
    ensures SourceName(name) <==>
              name in {"consul", "vault", "config-server", "firestore", "git", "redis", "etcd", "nats", "s3"}
  {
  }

  predicate SourceName(name: string) {
    name in Sources()
  }

  lemma SourcesPlain(name: string)
    requires name in Sources()
    ensures NamespaceOk(name)
  {
    var sources := Sources();
    assert forall k :: 0 <= k < |sources| ==> NamespaceOk(sources[k]);
  }

  /** A group a gate accepts, by its validator alone. */
  predicate GateGroup(group: Group, valid: string -> bool) {
    && NamespaceOk(group.namespace) && group.names != []
    && (forall k :: 0 <= k < |group.names| ==> NameOk(group.names[k], valid))
  }

  lemma EnvNamePlain(name: string)
    requires NameOk(name, EnvName)
    ensures CleanName(name, EnvName)
  {
    assert forall c :: c in name ==> 'A' <= c <= 'Z' || '0' <= c <= '9' || c == '_' || c == '*';
    assert name != "" ==> name[0] in name && name[|name| - 1] in name;
  }

  lemma SourceNamePlain(name: string)
    requires NameOk(name, SourceName)
    ensures CleanName(name, SourceName)
  {
    hide Sources;
    if name != "*" {
      SourcesPlain(name);
      NamespacePlain(name);
    }
    assert forall c :: c in name ==> 'a' <= c <= 'z' || '0' <= c <= '9' || c == '-' || c == '*';
  }

  /** The two kinds of gate the webhook has: for their names no delimiter is left to exclude,
      so a document reads back exactly when each group is one the gate accepts. */
  lemma GatesReadBackExactly(groups: seq<Group>)
    ensures Parse(Print(groups), EnvName) == Ok(groups) <==>
              forall k :: 0 <= k < |groups| ==> GateGroup(groups[k], EnvName)
    ensures Parse(Print(groups), SourceName) == Ok(groups) <==>
              forall k :: 0 <= k < |groups| ==> GateGroup(groups[k], SourceName)
  {
    PrintParsesExactly(groups, EnvName);
    PrintParsesExactly(groups, SourceName);
    hide Parse, Print, EnvName, SourceName, NamespaceOk;
    forall k | 0 <= k < |groups|
      ensures CleanGroup(groups[k], EnvName) <==> GateGroup(groups[k], EnvName)
      ensures CleanGroup(groups[k], SourceName) <==> GateGroup(groups[k], SourceName)
    {
      GroupCleanExactly(groups[k]);
    }
  }

  lemma GroupCleanExactly(group: Group)
    ensures CleanGroup(group, EnvName) <==> GateGroup(group, EnvName)
    ensures CleanGroup(group, SourceName) <==> GateGroup(group, SourceName)
  {
    hide EnvName, SourceName, NamespaceOk, Piece, Free;
    forall k | 0 <= k < |group.names|
      ensures CleanName(group.names[k], EnvName) <==> NameOk(group.names[k], EnvName)
      ensures CleanName(group.names[k], SourceName) <==> NameOk(group.names[k], SourceName)
    {
      if NameOk(group.names[k], EnvName) {
        EnvNamePlain(group.names[k]);
      }
      if NameOk(group.names[k], SourceName) {
        SourceNamePlain(group.names[k]);
      }
    }
  }

  /** The names of every group that speaks for a namespace, in order. */
  function Patterns(groups: seq<Group>, namespace: string): seq<string> {
    if groups == [] then []
    else
      (if groups[0].namespace == "*" || groups[0].namespace == namespace then groups[0].names else [])
      + Patterns(groups[1..], namespace)
  }

  /** One pattern against one name, as `allows` tries it. */
  predicate PatternAllows(pattern: string, name: string) {
    if pattern != "" && pattern[|pattern| - 1] == '*'
    then pattern == "*" || pattern[..|pattern| - 1] <= name
    else pattern == name
  }

  predicate Allows(groups: seq<Group>, namespace: string, name: string) {
    exists k :: 0 <= k < |Patterns(groups, namespace)| && PatternAllows(Patterns(groups, namespace)[k], name)
  }

  /** A name the pattern stands for: the name itself, or any that begins with the prefix. */
  ghost predicate Stands(pattern: string, name: string) {
    if pattern != "" && pattern[|pattern| - 1] == '*'
    then exists n :: 0 <= n <= |name| && name[..n] == pattern[..|pattern| - 1]
    else name == pattern
  }

  lemma PatternStands(pattern: string, name: string)
    ensures PatternAllows(pattern, name) <==> Stands(pattern, name)
  {
    if pattern != "" && pattern[|pattern| - 1] == '*' {
      var stem := pattern[..|pattern| - 1];
      if PatternAllows(pattern, name) {
        assert pattern == "*" ==> stem == "";
        assert name[..|stem|] == stem;
      }
    }
  }

  /** A document grants a name when a list under the namespace, or under every namespace,
      holds a pattern that stands for it. */
  ghost predicate Grants(groups: seq<Group>, namespace: string, name: string) {
    exists g, k :: 0 <= g < |groups| && 0 <= k < |groups[g].names| &&
                   (groups[g].namespace == "*" || groups[g].namespace == namespace) &&
                   Stands(groups[g].names[k], name)
  }

  lemma {:induction false} PatternsHold(groups: seq<Group>, namespace: string, pattern: string)
    ensures pattern in Patterns(groups, namespace) <==>
              exists g, k :: 0 <= g < |groups| && 0 <= k < |groups[g].names| &&
                             (groups[g].namespace == "*" || groups[g].namespace == namespace) &&
                             groups[g].names[k] == pattern
  {
    if groups != [] {
      PatternsHold(groups[1..], namespace, pattern);
    }
  }

  lemma AllowsExactly(groups: seq<Group>, namespace: string, name: string)
    ensures Allows(groups, namespace, name) <==> Grants(groups, namespace, name)
  {
    var patterns := Patterns(groups, namespace);
    hide Patterns, Stands, PatternAllows;
    if Allows(groups, namespace, name) {
      var k :| 0 <= k < |patterns| && PatternAllows(patterns[k], name);
      PatternsHold(groups, namespace, patterns[k]);
      PatternStands(patterns[k], name);
    }
    if Grants(groups, namespace, name) {
      var g, k :| 0 <= g < |groups| && 0 <= k < |groups[g].names| &&
                  (groups[g].namespace == "*" || groups[g].namespace == namespace) &&
                  Stands(groups[g].names[k], name);
      PatternsHold(groups, namespace, groups[g].names[k]);
      PatternStands(groups[g].names[k], name);
    }
  }

  /** The gate a document's list becomes allows what the document grants, and nothing else. */
  lemma GateIsDocument(entries: seq<Entry>, valid: string -> bool, namespace: string, name: string)
    requires GroupsOf(entries).Ok?
    requires forall k :: 0 <= k < |GroupsOf(entries).value| ==> CleanGroup(GroupsOf(entries).value[k], valid)
    ensures Parse(Print(GroupsOf(entries).value), valid).Ok?
    ensures Allows(Parse(Print(GroupsOf(entries).value), valid).value, namespace, name) <==>
              Grants(GroupsOf(entries).value, namespace, name)
  {
    PrintParsesExactly(GroupsOf(entries).value, valid);
    AllowsExactly(GroupsOf(entries).value, namespace, name);
  }
}
