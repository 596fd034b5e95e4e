/** Per-store defaults: the document's map of stores as one string, and the webhook's
    reading of it. */
module StoreDefaults {
  import opened Wrappers
  import opened Text
  import opened Grammar

  datatype Pair = Pair(knob: string, value: string)

  datatype Store = Store(name: string, pairs: seq<Pair>)

  // ----- the printer ----------------------------------------------------------------

  function PairOf(entry: Entry): Result<Pair> {
    var text :- ScalarText(entry.value);
    Ok(Pair(entry.key, text))
  }

  function PrintPair(pair: Pair): string {
    pair.knob + "=" + pair.value
  }

  function PrintPairs(pairs: seq<Pair>): (texts: seq<string>)
    ensures |texts| == |pairs|
    ensures forall k :: 0 <= k < |pairs| ==> texts[k] == PrintPair(pairs[k])
  {
    if pairs == [] then [] else [PrintPair(pairs[0])] + PrintPairs(pairs[1..])
  }

  /** One store's settings as text: a map, or that grammar already written as a string. */
  function Body(settings: Value): Result<string> {
    match settings
    case Word(written) => Ok(written)
    case Map(entries) =>
      var pairs :- Traverse(PairOf, entries);
      Ok(Join(PrintPairs(pairs), ", "))
    case _ => Err
  }

  function PrintStore(entry: Entry): Result<string> {
    var body :- Body(entry.value);
    Ok(entry.key + ": " + body)
  }

  /** `per_store`: a map of store to its settings, as one string. */
  method PerStore(value: Value) returns (text: Result<string>)
    ensures text.Ok? <==> value.Map? && Traverse(PrintStore, value.entries).Ok?
    ensures text.Ok? ==> text.value == Join(Traverse(PrintStore, value.entries).value, "; ")
  {
    if !value.Map? {
      return Err;
    }
    var stores := value.entries;
    var groups: seq<string> := [];
    hide Join, ScalarText;
    for k := 0 to |stores|
      invariant |groups| == k && forall j :: 0 <= j < k ==> PrintStore(stores[j]) == Ok(groups[j])
    {
      if stores[k].value.Word? {
        groups := groups + [stores[k].key + ": " + stores[k].value.text];
      } else if !stores[k].value.Map? {
        return Err;
      } else {
        var texts := PairTexts(stores[k].value.entries);
        if texts.Err? {
          return Err;
        }
        groups := groups + [stores[k].key + ": " + Join(texts.value, ", ")];
      }
    }
    assert groups == Traverse(PrintStore, stores).value;
    text := Ok(Join(groups, "; "));
  }

  method PairTexts(entries: seq<Entry>) returns (texts: Result<seq<string>>)
    ensures texts.Ok? <==> Traverse(PairOf, entries).Ok?
    ensures texts.Ok? ==> texts.value == PrintPairs(Traverse(PairOf, entries).value)
  {
    hide ScalarText, PrintPair;
    var written: seq<string> := [];
    for k := 0 to |entries|
      invariant |written| == k
      invariant forall j :: 0 <= j < k ==> PairOf(entries[j]).Ok? && written[j] == PrintPair(PairOf(entries[j]).value)
    {
      var pair := PairOf(entries[k]);
      if pair.Err? {
        return Err;
      }
      written := written + [PrintPair(pair.value)];
    }
    assert written == PrintPairs(Traverse(PairOf, entries).value);
    texts := Ok(written);
  }

  // ----- the parser -----------------------------------------------------------------

  function ParsePair(text: string): Result<Pair> {
    match SplitOnce(text, '=')
    case None => Err
    case Some((knob, value)) => Ok(Pair(Trim(knob), Trim(value)))
  }

  function ParsePairs(text: string): Result<seq<Pair>> {
    Traverse(ParsePair, Parts(text, ','))
  }

  function ParseStore(group: string): Result<Store> {
    match SplitOnce(group, ':')
    case None => Err
    case Some((name, knobs)) =>
      if Trim(name) !in Sources() then Err
      else
        var pairs :- ParsePairs(knobs);
        Ok(Store(Trim(name), pairs))
  }

  predicate DistinctStores(stores: seq<Store>) {
    forall j, k :: 0 <= j < k < |stores| ==> stores[j].name != stores[k].name
  }

  /** Every pair is one the webhook accepts, as `set` decides it. */
  predicate AllAccepted(stores: seq<Store>, accepts: Pair -> bool) {
    forall k, j :: 0 <= k < |stores| && 0 <= j < |stores[k].pairs| ==> accepts(stores[k].pairs[j])
  }

  /** What `from_lookup` reads of the variable. */
  function ParseStores(text: string, accepts: Pair -> bool): Result<seq<Store>> {
    var stores :- Traverse(ParseStore, Parts(text, ';'));
    if DistinctStores(stores) && AllAccepted(stores, accepts) then Ok(stores) else Err
  }

  method ReadPairs(text: string, accepts: Pair -> bool) returns (pairs: Result<seq<Pair>>)
    ensures pairs.Ok? <==>
              ParsePairs(text).Ok? &&
              forall k :: 0 <= k < |ParsePairs(text).value| ==> accepts(ParsePairs(text).value[k])
    ensures pairs.Ok? ==> pairs == ParsePairs(text)
  {
    hide Parts, ParsePair;
    var texts := PartsOf(text, ',');
    var read: seq<Pair> := [];
    for k := 0 to |texts|
      invariant |read| == k
      invariant forall j :: 0 <= j < k ==> ParsePair(texts[j]) == Ok(read[j]) && accepts(read[j])
    {
      var pair := ParsePair(texts[k]);
      if pair.Err? || !accepts(pair.value) {
        return Err;
      }
      read := read + [pair.value];
    }
    assert read == ParsePairs(text).value;
    pairs := Ok(read);
  }

  /** The store defaults of `from_lookup`. */
  method ReadStores(text: string, accepts: Pair -> bool) returns (stores: Result<seq<Store>>)
    ensures stores == ParseStores(text, accepts)
  {
    hide Parts, ParsePairs, SplitOnce, Trim, Sources;
    var groups := PartsOf(text, ';');
    var read: seq<Store> := [];
    for k := 0 to |groups|
      invariant |read| == k && forall j :: 0 <= j < k ==> ParseStore(groups[j]) == Ok(read[j])
      invariant DistinctStores(read) && AllAccepted(read, accepts)
    {
      var head := SplitOnce(groups[k], ':');
      if head.None? {
        return Err;
      }
      var name, knobs := Trim(head.value.0), head.value.1;
      if name !in Sources() {
        return Err;
      }
      for j := 0 to k
        invariant forall i :: 0 <= i < j ==> read[i].name != name
      {
        if read[j].name == name {
          return Err;
        }
      }
      var pairs := ReadPairs(knobs, accepts);
      if pairs.Err? {
        return Err;
      }
      read := read + [Store(name, pairs.value)];
    }
    assert groups == Parts(text, ';');
    assert read == Traverse(ParseStore, groups).value;
    stores := Ok(read);
  }

  // ----- trimming around the separators ---------------------------------------------

  lemma {:induction false} TrimStartSpace(text: string, s: char)
    requires IsSpace(s)
    ensures TrimStart(text + [s]) == if TrimStart(text) == "" then "" else TrimStart(text) + [s]
  {
    if text == "" {
      assert text + [s] == [s] && [s][1..] == "";
    } else {
      assert (text + [s])[1..] == text[1..] + [s];
      TrimStartSpace(text[1..], s);
    }
  }

  lemma TrimSpaceAfter(text: string, s: char)
    requires IsSpace(s)
    ensures Trim(text + [s]) == Trim(text)
  {
    TrimStartSpace(text, s);
    var start := TrimStart(text);
    assert (start + [s])[..|start|] == start;
  }

  lemma TrimSpaceBefore(text: string)
    ensures Trim(" " + text) == Trim(text)
  {
    assert (" " + text)[1..] == text;
  }

  lemma {:induction false} TrimEndAfter(before: string, text: string)
    requires before != "" && !IsSpace(before[|before| - 1])
    ensures TrimEnd(before + text) == before + TrimEnd(text)
  {
    hide IsSpace;
    if text == "" {
      assert before + text == before && before + TrimEnd(text) == before;
    } else {
      assert (before + text)[..|before + text| - 1] == before + text[..|text| - 1];
      TrimEndAfter(before, text[..|text| - 1]);
    }
  }

  lemma {:induction false} SplitSpaceAfter(text: string, s: char, c: char)
    requires s != c
    ensures var parts := Split(text, c);
            Split(text + [s], c) == parts[..|parts| - 1] + [parts[|parts| - 1] + [s]]
  {
    if text == "" {
      assert text + [s] == [s] && [s][1..] == "";
      assert [s] + "" == [s] == "" + [s];
    } else {
      assert (text + [s])[1..] == text[1..] + [s];
      SplitSpaceAfter(text[1..], s, c);
      var rest := Split(text[1..], c);
      if text[0] == c {
        assert Split(text, c) == [""] + rest;
      } else if |rest| == 1 {
        assert [text[0]] + (rest[0] + [s]) == [text[0]] + rest[0] + [s];
      }
    }
  }

  lemma {:induction false} KeptLast(parts: seq<string>, last: string)
    ensures Kept(parts + [last]) == Kept(parts) + if Trim(last) == "" then [] else [Trim(last)]
  {
    hide Trim;
    if parts == [] {
      assert parts + [last] == [last] && [last][1..] == [];
    } else {
      assert (parts + [last])[1..] == parts[1..] + [last];
      KeptLast(parts[1..], last);
    }
  }

  lemma PartsSpaceAfter(text: string, s: char, c: char)
    requires IsSpace(s) && s != c
    ensures Parts(text + [s], c) == Parts(text, c)
  {
    hide Split, Kept, IsSpace;
    var parts := Split(text, c);
    SplitSpaceAfter(text, s, c);
    assert parts == parts[..|parts| - 1] + [parts[|parts| - 1]];
    KeptSpaceAfter(parts[..|parts| - 1], parts[|parts| - 1], s);
  }

  lemma KeptSpaceAfter(before: seq<string>, last: string, s: char)
    requires IsSpace(s)
    ensures Kept(before + [last + [s]]) == Kept(before + [last])
  {
    TrimSpaceAfter(last, s);
    hide Trim, IsSpace, Kept;
    KeptLast(before, last);
    KeptLast(before, last + [s]);
  }

  /** Spaces at the end of the text are no part of its pieces. */
  lemma {:induction false} PartsTrimEnd(text: string, c: char)
    requires !IsSpace(c)
    ensures Parts(TrimEnd(text), c) == Parts(text, c)
  {
    hide Parts, IsSpace;
    if text != "" && IsSpace(text[|text| - 1]) {
      var before, s := text[..|text| - 1], text[|text| - 1];
      PartsTrimEnd(before, c);
      PartsSpaceAfter(before, s, c);
      assert text == before + [s];
    }
  }

  // ----- groups read back -----------------------------------------------------------

  function Trims(texts: seq<string>): seq<string> {
    if texts == [] then [] else [Trim(texts[0])] + Trims(texts[1..])
  }

  lemma {:induction false} TrimsEach(texts: seq<string>)
    ensures |Trims(texts)| == |texts|
    ensures forall k :: 0 <= k < |texts| ==> Trims(texts)[k] == Trim(texts[k])
  {
    hide Trim;
    if texts != [] {
      TrimsEach(texts[1..]);
    }
  }

  lemma {:induction false} KeptTrims(texts: seq<string>)
    requires forall k :: 0 <= k < |texts| ==> Trim(texts[k]) != ""
    ensures Kept(Padded(" ", texts)) == Trims(texts)
  {
    hide Trim;
    if texts != [] {
      KeptTrims(texts[1..]);
      TrimSpaceBefore(texts[0]);
      KeptFirst(" " + texts[0], Padded(" ", texts[1..]));
    }
  }

  /** Groups that hold no separator are read one by one, whatever else is in them. */
  lemma GroupsApart(groups: seq<string>)
    requires forall k :: 0 <= k < |groups| ==> Free(groups[k], ';')
    requires forall k :: 0 <= k < |groups| ==> Trim(groups[k]) != ""
    ensures Parts(Join(groups, "; "), ';') == Trims(groups)
  {
    if groups == [] {
      PartsJoin(groups, ';');
    } else {
      JoinedApart(groups, groups[0], groups[1..]);
    }
  }

  lemma JoinedApart(all: seq<string>, first: string, rest: seq<string>)
    requires all != [] && all[0] == first && all[1..] == rest
    requires forall k :: 0 <= k < |all| ==> Free(all[k], ';')
    requires forall k :: 0 <= k < |rest| ==> Trim(rest[k]) != ""
    requires Trim(first) != ""
    ensures Parts(Join(all, "; "), ';') == Trims(all)
  {
    hide Join, Split, Trim, Free, Kept, Padded, Trims, Parts;
    SplitApart(all);
    KeptTrims(rest);
    FirstKept(Join(all, "; "), all, Padded(" ", rest));
  }

  lemma SplitApart(all: seq<string>)
    requires all != [] && forall k :: 0 <= k < |all| ==> Free(all[k], ';')
    ensures Split(Join(all, "; "), ';') == [all[0]] + Padded(" ", all[1..])
  {
    assert [';'] + " " == "; " && Free(" ", ';');
    hide Join, Split, Free, Padded;
    SplitJoin(all, ';', " ");
  }

  lemma FirstKept(text: string, all: seq<string>, padded: seq<string>)
    requires all != [] && Trim(all[0]) != "" && Split(text, ';') == [all[0]] + padded
    requires Kept(padded) == Trims(all[1..])
    ensures Parts(text, ';') == Trims(all)
  {
    hide Split, Trim, Kept;
    KeptFirst(all[0], padded);
  }

  lemma GroupTrims(name: string, body: string)
    requires NamespaceOk(name)
    ensures Trim(name + ": " + body) == name + [':'] + TrimEnd(" " + body)
  {
    NamespacePlain(name);
    hide NamespaceOk, TrimEnd;
    var text := name + ": " + body;
    var before := name + [':'];
    assert text == before + (" " + body);
    assert text[0] == name[0] && before[|before| - 1] == ':';
    hide IsSpace;
    assert TrimStart(text) == text;
    TrimEndAfter(before, " " + body);
  }

  /** One store's group is read as its name and whatever its body says. */
  lemma StoreReadsBack(name: string, body: string)
    requires name in Sources()
    ensures ParseStore(Trim(name + ": " + body)) ==
              match ParsePairs(body) { case Err => Err case Ok(pairs) => Ok(Store(name, pairs)) }
    ensures Trim(name + ": " + body) != ""
  {
    hide Sources, TrimEnd, Parts, SplitOnce, Traverse, Free, ParseStore, ParsePairs, NamespaceOk, Trim, Trimmed;
    SourcesPlain(name);
    GroupTrims(name, body);
    NamespacePlain(name);
    BodyTrims(body);
    StoreParses(Trim(name + ": " + body), name, TrimEnd(" " + body));
  }

  lemma BodyTrims(body: string)
    ensures ParsePairs(TrimEnd(" " + body)) == ParsePairs(body)
  {
    assert !IsSpace(',');
    hide Parts, Traverse, IsSpace, TrimEnd;
    PartsTrimEnd(" " + body, ',');
    PartsSpaced(body, ',');
  }

  lemma StoreParses(group: string, name: string, rest: string)
    requires name in Sources() && Free(name, ':') && Trim(name) == name
    requires group == name + [':'] + rest
    ensures ParseStore(group) ==
              match ParsePairs(rest) { case Err => Err case Ok(pairs) => Ok(Store(name, pairs)) }
  {
    hide Sources, ParsePairs, SplitOnce, Trim;
    SplitAt(name, ':', rest);
  }

  /** What one entry of the document says: the map's pairs, or what the string is read as. */
  function Meant(entry: Entry): Result<Store> {
    match entry.value
    case Word(written) => (var pairs :- ParsePairs(written); Ok(Store(entry.key, pairs)))
    case Map(entries) => (var pairs :- Traverse(PairOf, entries); Ok(Store(entry.key, pairs)))
    case _ => Err
  }

  /** A knob and its value that the grammar can carry. */
  predicate CleanPair(pair: Pair) {
    && Trimmed(pair.knob) && Free(pair.knob, '=') && Free(pair.knob, ',') && Free(pair.knob, ';')
    && Trimmed(pair.value) && Free(pair.value, ',') && Free(pair.value, ';')
  }

  predicate CleanPairs(pairs: seq<Pair>) {
    forall k :: 0 <= k < |pairs| ==> CleanPair(pairs[k])
  }

  lemma PairReadsBack(pair: Pair)
    requires CleanPair(pair)
    ensures ParsePair(PrintPair(pair)) == Ok(pair)
  {
    hide Trim, Trimmed, Free, ParsePair;
    TrimmedStays(pair.knob, "");
    TrimmedStays(pair.value, "");
    hide CleanPair;
    PairParses(PrintPair(pair), pair.knob, pair.value);
  }

  lemma PairParses(text: string, knob: string, value: string)
    requires text == knob + ['='] + value && Free(knob, '=') && Trim(knob) == knob && Trim(value) == value
    ensures ParsePair(text) == Ok(Pair(knob, value))
  {
    hide Trim, SplitOnce;
    SplitAt(knob, '=', value);
  }

  lemma PairIsPiece(pair: Pair)
    requires CleanPair(pair)
    ensures Piece(PrintPair(pair), ',') && Free(PrintPair(pair), ';')
  {
    assert !IsSpace('=');
    hide IsSpace;
    var text := PrintPair(pair);
    assert text[0] == (if pair.knob == "" then '=' else pair.knob[0]);
    assert text[|text| - 1] == (if pair.value == "" then '=' else pair.value[|pair.value| - 1]);
  }

  lemma PairsReadBack(pairs: seq<Pair>)
    requires CleanPairs(pairs)
    ensures ParsePairs(Join(PrintPairs(pairs), ", ")) == Ok(pairs)
    ensures Free(Join(PrintPairs(pairs), ", "), ';')
  {
    hide Parts, Join, ParsePair, PrintPair, Piece, Free, CleanPair;
    var texts := PrintPairs(pairs);
    forall k | 0 <= k < |pairs| ensures Piece(texts[k], ',') && Free(texts[k], ';') {
      PairIsPiece(pairs[k]);
    }
    forall k | 0 <= k < |pairs| ensures ParsePair(texts[k]) == Ok(pairs[k]) {
      PairReadsBack(pairs[k]);
    }
    hide CleanPairs;
    NamesReadBack(texts);
    PartsSpaced(Join(texts, ", "), ',');
    assert Traverse(ParsePair, texts).value == pairs;
  }

  /** A store's settings as the grammar can carry them. */
  predicate CleanStore(store: Store) {
    store.name in Sources() && CleanPairs(store.pairs)
  }

  /** A document the grammar can carry: known stores, each with clean pairs or with a string
      that is no longer than its group. */
  predicate CleanEntry(entry: Entry) {
    && entry.key in Sources() && Meant(entry).Ok?
    && (entry.value.Word? ==> Free(entry.value.text, ';'))
    && (entry.value.Map? ==> CleanPairs(Meant(entry).value.pairs))
  }

  lemma EntryReadsBack(entry: Entry)
    requires CleanEntry(entry)
    ensures PrintStore(entry).Ok? && Free(PrintStore(entry).value, ';') && Meant(entry).Ok?
    ensures Trim(PrintStore(entry).value) != ""
    ensures ParseStore(Trim(PrintStore(entry).value)) == Meant(entry)
  {
    hide Sources, ParsePairs, Traverse, Join, Trim, Free, ParseStore, CleanPairs;
    BodyReadsBack(entry);
    var body := Body(entry.value).value;
    StoreReadsBack(entry.key, body);
    StoreBodyFree(entry.key, body);
  }

  lemma BodyReadsBack(entry: Entry)
    requires CleanEntry(entry)
    ensures Body(entry.value).Ok? && Free(Body(entry.value).value, ';')
    ensures ParsePairs(Body(entry.value).value) == Ok(Meant(entry).value.pairs)
  {
    hide Sources, ParsePairs, Traverse, Join, Free, CleanPairs;
    if entry.value.Map? {
      PairsReadBack(Meant(entry).value.pairs);
    }
  }

  /** Printed and read, a document's stores come back as it meant them, in order: the maps
      pair by pair and the strings as the grammar reads them, and the refusals are those of
      a repeated store and of a setting the webhook does not accept. */
  lemma DocumentReadsBack(entries: seq<Entry>, accepts: Pair -> bool)
    requires forall k :: 0 <= k < |entries| ==> CleanEntry(entries[k])
    ensures Traverse(PrintStore, entries).Ok? && Traverse(Meant, entries).Ok?
    ensures var meant := Traverse(Meant, entries).value;
            ParseStores(Join(Traverse(PrintStore, entries).value, "; "), accepts) ==
              if DistinctStores(meant) && AllAccepted(meant, accepts) then Ok(meant) else Err
  {
    hide CleanEntry, PrintStore, Meant, ParseStore, Trim, Join, Parts, Free, DistinctStores, AllAccepted;
    forall k | 0 <= k < |entries|
      ensures PrintStore(entries[k]).Ok? && Free(PrintStore(entries[k]).value, ';')
      ensures Trim(PrintStore(entries[k]).value) != "" && Meant(entries[k]).Ok?
      ensures ParseStore(Trim(PrintStore(entries[k]).value)) == Meant(entries[k])
    {
      EntryReadsBack(entries[k]);
    }
    var groups, meant := Traverse(PrintStore, entries).value, Traverse(Meant, entries).value;
    GroupsApart(groups);
    TrimsEach(groups);
    hide Trims;
    assert Traverse(ParseStore, Trims(groups)).value == meant;
  }

  // ----- exactly when ---------------------------------------------------------------

  function PrintStoreOf(store: Store): string {
    store.name + ": " + Join(PrintPairs(store.pairs), ", ")
  }

  function PrintStores(stores: seq<Store>): (texts: seq<string>)
    ensures |texts| == |stores|
    ensures forall k :: 0 <= k < |stores| ==> texts[k] == PrintStoreOf(stores[k])
  {
    if stores == [] then [] else [PrintStoreOf(stores[0])] + PrintStores(stores[1..])
  }

  lemma ParsedPairClean(text: string)
    requires Free(text, ',') && Free(text, ';') && ParsePair(text).Ok?
    ensures CleanPair(ParsePair(text).value)
  {
    hide Trim;
    var (knob, value) := SplitOnce(text, '=').value;
    TrimKeepsFree(knob, '=');
    TrimKeepsFree(knob, ',');
    TrimKeepsFree(knob, ';');
    TrimKeepsFree(value, ',');
    TrimKeepsFree(value, ';');
  }

  lemma ParsedStoreClean(text: string)
    requires Free(text, ';') && ParseStore(text).Ok?
    ensures CleanStore(ParseStore(text).value)
  {
    hide Sources, Trim;
    var (_, knobs) := SplitOnce(text, ':').value;
    assert Free(knobs, ';');
    PartsArePieces(knobs, ',', ';');
    var texts, pairs := Parts(knobs, ','), ParseStore(text).value.pairs;
    hide Parts, SplitOnce, ParsePair;
    forall k | 0 <= k < |pairs| ensures CleanPair(pairs[k]) {
      assert ParsePair(texts[k]) == Ok(pairs[k]) && Piece(texts[k], ',') && Piece(texts[k], ';');
      ParsedPairClean(texts[k]);
    }
  }

  lemma StoreOfReadsBack(store: Store)
    requires CleanStore(store)
    ensures Free(PrintStoreOf(store), ';') && Trim(PrintStoreOf(store)) != ""
    ensures ParseStore(Trim(PrintStoreOf(store))) == Ok(store)
  {
    hide Sources, ParsePairs, Join, Trim, NamespaceOk, Free, ParseStore, CleanPairs;
    PairsReadBack(store.pairs);
    var body := Join(PrintPairs(store.pairs), ", ");
    StoreReadsBack(store.name, body);
    StoreBodyFree(store.name, body);
  }

  lemma StoreBodyFree(name: string, body: string)
    requires name in Sources() && Free(body, ';')
    ensures Free(name + ": " + body, ';')
  {
    SourcesPlain(name);
    NamespacePlain(name);
  }

  /** Printer and parser undo each other exactly on stores the contract knows, named once,
      whose knobs and values are trimmed, free of the grammar's delimiters and accepted. */
  lemma StoresReadBackExactly(stores: seq<Store>, accepts: Pair -> bool)
    ensures ParseStores(Join(PrintStores(stores), "; "), accepts) == Ok(stores) <==>
              (forall k :: 0 <= k < |stores| ==> CleanStore(stores[k])) &&
              (forall j, k :: 0 <= j < k < |stores| ==> stores[j].name != stores[k].name) &&
              (forall k, j :: 0 <= k < |stores| && 0 <= j < |stores[k].pairs| ==> accepts(stores[k].pairs[j]))
  {
    hide CleanStore, PrintStoreOf, ParseStore, Trim, Join, Split, Kept, Free;
    if forall k :: 0 <= k < |stores| ==> CleanStore(stores[k]) {
      CleanStoresReadBack(stores);
    } else if ParseStores(Join(PrintStores(stores), "; "), accepts) == Ok(stores) {
      ParsedStoresClean(Join(PrintStores(stores), "; "));
    }
  }

  lemma CleanStoresReadBack(stores: seq<Store>)
    requires forall k :: 0 <= k < |stores| ==> CleanStore(stores[k])
    ensures Traverse(ParseStore, Parts(Join(PrintStores(stores), "; "), ';')) == Ok(stores)
  {
    hide CleanStore, PrintStoreOf, ParseStore, Trim, Join, Parts, Free;
    var texts := PrintStores(stores);
    forall k | 0 <= k < |stores|
      ensures Free(texts[k], ';') && Trim(texts[k]) != "" && ParseStore(Trim(texts[k])) == Ok(stores[k])
    {
      StoreOfReadsBack(stores[k]);
    }
    GroupsApart(texts);
    TrimsEach(texts);
    hide Trims;
    assert Traverse(ParseStore, Trims(texts)).value == stores;
  }

  lemma ParsedStoresClean(text: string)
    requires Traverse(ParseStore, Parts(text, ';')).Ok?
    ensures var stores := Traverse(ParseStore, Parts(text, ';')).value;
            forall k :: 0 <= k < |stores| ==> CleanStore(stores[k])
  {
    hide CleanStore, ParseStore, Trim;
    var groups, stores := Parts(text, ';'), Traverse(ParseStore, Parts(text, ';')).value;
    KeptPieces(Split(text, ';'), ';');
    forall k | 0 <= k < |stores| ensures CleanStore(stores[k]) {
      assert Piece(groups[k], ';') && ParseStore(groups[k]) == Ok(stores[k]);
      ParsedStoreClean(groups[k]);
    }
  }
}
