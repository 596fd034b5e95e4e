/** `.properties` output: a document flattened to `dotted.path = value` lines. */
module Properties {
  import opened Wrappers
  import opened Text

  /** The text of a number, as it is printed. */
  type Numeral = s: string | s != "" && forall c :: c in s ==> NumeralChar(c) witness "0"

  predicate NumeralChar(c: char) {
    '0' <= c <= '9' || c == '+' || c == '-' || c == '.' || c == 'e' || c == 'E'
  }

  /** A resolved document; a table keeps its entries in the order they are visited. */
  datatype Json =
    | Null
    | Bool(truth: bool)
    | Number(numeral: Numeral)
    | Word(text: string)
    | Array(items: seq<Json>)
    | Table(entries: Entries)

  datatype Entries = Nil | Entry(key: string, value: Json, rest: Entries)

  /** A leaf and the keys that lead to it. */
  type Leaf = (seq<string>, Json)

  // ----- the two walks --------------------------------------------------------------

  /** Every leaf in order; an array is a leaf here. */
  function WalkEnv(value: Json, path: seq<string>): seq<Leaf>
  {
    if value.Table? then WalkEnvEntries(value.entries, path) else [(path, value)]
  }

  function WalkEnvEntries(entries: Entries, path: seq<string>): seq<Leaf>
  {
    if entries.Nil? then []
    else WalkEnv(entries.value, path + [entries.key]) + WalkEnvEntries(entries.rest, path)
  }

  predicate ArrayFree(value: Json)
  {
    match value
    case Array(_) => false
    case Table(entries) => ArrayFreeEntries(entries)
    case _ => true
  }

  predicate ArrayFreeEntries(entries: Entries)
  {
    entries.Nil? || (ArrayFree(entries.value) && ArrayFreeEntries(entries.rest))
  }

  /** A value lies at a path: step by step, into any entry of that key. */
  ghost predicate LiesAt(value: Json, path: seq<string>, leaf: Json)
    decreases |path|, 1
  {
    if path == [] then leaf == value else value.Table? && LiesIn(value.entries, path, leaf)
  }

  ghost predicate LiesIn(entries: Entries, path: seq<string>, leaf: Json)
    requires path != []
    decreases |path|, 0
  {
    exists child :: Child(entries, path[0], child) && LiesAt(child, path[1..], leaf)
  }

  ghost predicate Child(entries: Entries, key: string, child: Json) {
    entries.Entry? && ((entries.key == key && entries.value == child) || Child(entries.rest, key, child))
  }

  lemma {:induction false} ChildSmaller(entries: Entries, key: string, child: Json)
    requires Child(entries, key, child)
    ensures child < entries
  {
    if !(entries.key == key && entries.value == child) {
      ChildSmaller(entries.rest, key, child);
    }
  }

  /** The leaves are exactly what lies in the document that is not a table, at its path. */
  lemma {:induction false} LeavesExactly(value: Json, above: seq<string>, path: seq<string>, leaf: Json)
    ensures (above + path, leaf) in WalkEnv(value, above) <==> !leaf.Table? && LiesAt(value, path, leaf)
    decreases value, 1
  {
    if value.Table? {
      EntryLeavesExactly(value.entries, above, path, leaf);
    } else if path == [] {
      assert above + path == above;
    } else {
      assert |above + path| > |above|;
    }
  }

  lemma {:induction false} EntryLeavesExactly(entries: Entries, above: seq<string>, path: seq<string>, leaf: Json)
    ensures (above + path, leaf) in WalkEnvEntries(entries, above) <==>
              path != [] && !leaf.Table? && LiesIn(entries, path, leaf)
    decreases entries, 0
  {
    if entries.Entry? {
      EntryLeavesExactly(entries.rest, above, path, leaf);
      if path != [] && path[0] == entries.key {
        assert above + path == above + [entries.key] + path[1..];
        LeavesExactly(entries.value, above + [entries.key], path[1..], leaf);
      } else {
        NotBelow(above, entries.key, path);
        if (above + path, leaf) in WalkEnv(entries.value, above + [entries.key]) {
          LeavesBelow(entries.value, above + [entries.key], (above + path, leaf));
        }
      }
    }
  }

  lemma NotBelow(above: seq<string>, key: string, path: seq<string>)
    requires path == [] || path[0] != key
    ensures !(above + [key] <= above + path)
  {
    assert path != [] ==> (above + path)[|above|] == path[0] != (above + [key])[|above|];
  }

  lemma {:induction false} LeavesBelow(value: Json, above: seq<string>, leaf: Leaf)
    requires leaf in WalkEnv(value, above)
    ensures above <= leaf.0
    decreases value, 1
  {
    if value.Table? {
      EntryLeavesBelow(value.entries, above, leaf);
    }
  }

  lemma {:induction false} EntryLeavesBelow(entries: Entries, above: seq<string>, leaf: Leaf)
    requires leaf in WalkEnvEntries(entries, above)
    ensures above <= leaf.0
    decreases entries, 0
  {
    if leaf in WalkEnv(entries.value, above + [entries.key]) {
      LeavesBelow(entries.value, above + [entries.key], leaf);
    } else {
      EntryLeavesBelow(entries.rest, above, leaf);
    }
  }

  ghost predicate HoldsArray(value: Json) {
    exists path, leaf :: LiesAt(value, path, leaf) && leaf.Array?
  }

  ghost predicate HoldsArrayIn(entries: Entries) {
    exists path, leaf :: path != [] && LiesIn(entries, path, leaf) && leaf.Array?
  }

  /** A document holds an array exactly when one lies somewhere in it. */
  lemma {:induction false} ArrayFreeExactly(value: Json)
    ensures ArrayFree(value) <==> !HoldsArray(value)
    decreases value, 1
  {
    if value.Array? {
      assert LiesAt(value, [], value);
    } else if value.Table? {
      EntriesArrayFreeExactly(value.entries);
      if path, leaf :| LiesAt(value, path, leaf) && leaf.Array? {
        assert path != [] && LiesIn(value.entries, path, leaf);
      }
      if path, leaf :| path != [] && LiesIn(value.entries, path, leaf) && leaf.Array? {
        assert LiesAt(value, path, leaf);
      }
    } else {
      assert forall path, leaf :: LiesAt(value, path, leaf) ==> path == [];
    }
  }

  lemma {:induction false} EntriesArrayFreeExactly(entries: Entries)
    ensures ArrayFreeEntries(entries) <==> !HoldsArrayIn(entries)
    decreases entries, 0
  {
    if entries.Entry? {
      ArrayFreeExactly(entries.value);
      EntriesArrayFreeExactly(entries.rest);
      if path, leaf :| path != [] && LiesIn(entries, path, leaf) && leaf.Array? {
        var child :| Child(entries, path[0], child) && LiesAt(child, path[1..], leaf);
        assert Child(entries.rest, path[0], child) ==> LiesIn(entries.rest, path, leaf);
      }
      if path, leaf :| path != [] && LiesIn(entries.rest, path, leaf) && leaf.Array? {
        var child :| Child(entries.rest, path[0], child) && LiesAt(child, path[1..], leaf);
        assert Child(entries, path[0], child) && LiesIn(entries, path, leaf);
      }
      if path, leaf :| LiesAt(entries.value, path, leaf) && leaf.Array? {
        var longer := [entries.key] + path;
        assert longer[1..] == path && Child(entries, longer[0], entries.value);
        assert LiesIn(entries, longer, leaf);
      }
    }
  }

  /** How many leaves there are: each scalar and array once. */
  function Size(value: Json): nat {
    if value.Table? then SizeOf(value.entries) else 1
  }

  function SizeOf(entries: Entries): nat {
    if entries.Nil? then 0 else Size(entries.value) + SizeOf(entries.rest)
  }

  lemma {:induction false} LeavesCount(value: Json, path: seq<string>)
    ensures |WalkEnv(value, path)| == Size(value)
    decreases value, 1
  {
    if value.Table? {
      EntryLeavesCount(value.entries, path);
    }
  }

  lemma {:induction false} EntryLeavesCount(entries: Entries, path: seq<string>)
    ensures |WalkEnvEntries(entries, path)| == SizeOf(entries)
    decreases entries, 0
  {
    if entries.Entry? {
      LeavesCount(entries.value, path + [entries.key]);
      EntryLeavesCount(entries.rest, path);
    }
  }

  /** `walk`: the path is one stack, pushed and popped, and an array stops it. */
  class Walker {
    var path: seq<string>
    var leaves: seq<Leaf>

    constructor ()
      ensures path == [] && leaves == []
    {
      path, leaves := [], [];
    }

    method Walk(value: Json) returns (ok: bool)
      modifies this
      ensures ok <==> ArrayFree(value)
      ensures ok ==> path == old(path) && leaves == old(leaves) + WalkEnv(value, path)
    {
      match value
      case Array(_) => ok := false;
      case Table(entries) => ok := WalkEntries(entries);
      case _ =>
        leaves := leaves + [(path, value)];
        ok := true;
    }

    method WalkEntries(entries: Entries) returns (ok: bool)
      modifies this
      ensures ok <==> ArrayFreeEntries(entries)
      ensures ok ==> path == old(path) && leaves == old(leaves) + WalkEnvEntries(entries, path)
    {
      if entries.Nil? {
        return true;
      }
      path := path + [entries.key];
      ok := Walk(entries.value);
      if !ok {
        return;
      }
      path := path[..|path| - 1];
      ok := WalkEntries(entries.rest);
      ghost var first := WalkEnv(entries.value, old(path) + [entries.key]);
      assert old(leaves) + first + WalkEnvEntries(entries.rest, old(path)) ==
             old(leaves) + (first + WalkEnvEntries(entries.rest, old(path)));
    }
  }

  // ----- escaping -------------------------------------------------------------------

  /** `replace(c, other)`. */
  function Replace(text: string, c: char, other: string): string {
    if text == "" then "" else (if text[0] == c then other else [text[0]]) + Replace(text[1..], c, other)
  }

  /** The text of a scalar, before escaping. */
  function ScalarText(value: Json): string {
    match value
    case Word(text) => text
    case Bool(truth) => if truth then "true" else "false"
    case Number(numeral) => numeral
    case _ => "null"
  }

  /** A word is its own text, a number its numeral, and the other scalars have these. */
  lemma ScalarTextIs(value: Json)
    ensures value.Word? ==> ScalarText(value) == value.text
    ensures value.Number? ==> ScalarText(value) == value.numeral
    ensures value.Bool? ==> (ScalarText(value) == "true" <==> value.truth) && (ScalarText(value) == "false" <==> !value.truth)
    ensures value.Null? ==> ScalarText(value) == "null"
  {
  }

  function EscapeInSteps(text: string): string {
    Replace(Replace(Replace(Replace(text, '\\', "\\\\"), '=', "\\="), ':', "\\:"), '\n', "\\n")
  }

  function PropertiesScalar(value: Json): string {
    if value.Word? then EscapeInSteps(value.text) else ScalarText(value)
  }

  /** One character at a time. */
  function EscapeChar(c: char): string {
    if c == '\\' then "\\\\" else if c == '=' then "\\=" else if c == ':' then "\\:"
    else if c == '\n' then "\\n" else [c]
  }

  function Escape(text: string): string {
    if text == "" then "" else EscapeChar(text[0]) + Escape(text[1..])
  }

  function Unescape(text: string): string {
    if text == "" then ""
    else if text[0] == '\\' && |text| > 1 then
      [if text[1] == 'n' then '\n' else text[1]] + Unescape(text[2..])
    else [text[0]] + Unescape(text[1..])
  }

  lemma {:induction false} ReplaceJoin(a: string, b: string, c: char, other: string)
    ensures Replace(a + b, c, other) == Replace(a, c, other) + Replace(b, c, other)
  {
    if a == "" {
      assert a + b == b && Replace(a, c, other) + Replace(b, c, other) == Replace(b, c, other);
    } else {
      assert (a + b)[1..] == a[1..] + b;
      ReplaceJoin(a[1..], b, c, other);
    }
  }

  lemma StepsOnChar(c: char)
    ensures EscapeInSteps([c]) == EscapeChar(c)
  {
    ReplaceOne(c, '\\', "\\\\");
    if c != '\\' {
      ReplaceOne(c, '=', "\\=");
      if c != '=' {
        ReplaceOne(c, ':', "\\:");
        if c != ':' {
          ReplaceOne(c, '\n', "\\n");
        }
      }
    }
  }

  lemma ReplaceOne(x: char, c: char, other: string)
    ensures Replace([x], c, other) == if x == c then other else [x]
  {
    assert Replace([x][1..], c, other) == "";
    assert other + "" == other;
  }

  /** The four sequential replacements are one pass over the text. */
  lemma {:induction false} StepsAreEscape(text: string)
    ensures EscapeInSteps(text) == Escape(text)
  {
    if text != "" {
      var head, tail := [text[0]], text[1..];
      assert text == head + tail;
      StepsOnChar(text[0]);
      StepsAreEscape(tail);
      var h1, t1 := Replace(head, '\\', "\\\\"), Replace(tail, '\\', "\\\\");
      var h2, t2 := Replace(h1, '=', "\\="), Replace(t1, '=', "\\=");
      var h3, t3 := Replace(h2, ':', "\\:"), Replace(t2, ':', "\\:");
      ReplaceJoin(head, tail, '\\', "\\\\");
      ReplaceJoin(h1, t1, '=', "\\=");
      ReplaceJoin(h2, t2, ':', "\\:");
      ReplaceJoin(h3, t3, '\n', "\\n");
    }
  }

  lemma {:induction false} UnescapeUndoes(text: string)
    ensures Unescape(Escape(text)) == text
  {
    if text != "" {
      var escaped := Escape(text);
      var first := EscapeChar(text[0]);
      UnescapeUndoes(text[1..]);
      assert escaped[|first|..] == Escape(text[1..]);
      assert text == [text[0]] + text[1..];
    }
  }

  lemma {:induction false} UnescapePlain(text: string)
    requires Free(text, '\\')
    ensures Unescape(text) == text
  {
    if text != "" {
      UnescapePlain(text[1..]);
      assert text == [text[0]] + text[1..];
    }
  }

  /** Whether a character stands in the text that no backslash before it takes. */
  predicate HasBare(text: string, c: char) {
    text != "" &&
    if text[0] == '\\' && |text| > 1 then HasBare(text[2..], c)
    else text[0] == c || HasBare(text[1..], c)
  }

  /** An escaped value: its line cannot break in it, and no separator in it is one. */
  predicate Sealed(text: string) {
    Free(text, '\n') && !HasBare(text, '=') && !HasBare(text, ':')
  }

  lemma {:induction false} EscapeSeals(text: string)
    ensures Sealed(Escape(text))
  {
    if text != "" {
      var escaped, first := Escape(text), EscapeChar(text[0]);
      EscapeSeals(text[1..]);
      assert escaped[|first|..] == Escape(text[1..]);
    }
  }

  lemma {:induction false} PlainSealed(text: string)
    requires Free(text, '\\') && Free(text, '=') && Free(text, ':') && Free(text, '\n')
    ensures Sealed(text)
  {
    if text != "" {
      assert text[0] in text;
      PlainSealed(text[1..]);
    }
  }

  /** Reading a printed scalar gives back its text; it never breaks its line, and no `=` or
      `:` in it is without its backslash. */
  lemma ScalarReadsBack(value: Json)
    ensures Unescape(PropertiesScalar(value)) == ScalarText(value)
    ensures Sealed(PropertiesScalar(value))
  {
    hide Unescape, Escape, EscapeInSteps, Sealed;
    if value.Word? {
      StepsAreEscape(value.text);
      UnescapeUndoes(value.text);
      EscapeSeals(value.text);
    } else {
      UnescapePlain(ScalarText(value));
      PlainSealed(ScalarText(value));
    }
  }

  // ----- the file -------------------------------------------------------------------

  function Line(leaf: Leaf): string {
    Join(leaf.0, ".") + " = " + PropertiesScalar(leaf.1)
  }

  function Lines(leaves: seq<Leaf>): (lines: seq<string>)
    ensures |lines| == |leaves|
    ensures forall k :: 0 <= k < |leaves| ==> lines[k] == Line(leaves[k])
  {
    if leaves == [] then [] else [Line(leaves[0])] + Lines(leaves[1..])
  }

  /** What `flat` makes of a document; `Err` when it holds an array. */
  function Flat(document: Json): Result<string> {
    if ArrayFree(document) then Ok(Join(Lines(WalkEnv(document, [])), "\n") + "\n") else Err
  }

  method LinesOf(leaves: seq<Leaf>) returns (lines: seq<string>)
    ensures lines == Lines(leaves)
  {
    hide Line;
    lines := [];
    for k := 0 to |leaves|
      invariant |lines| == k
      invariant forall j :: 0 <= j < k ==> lines[j] == Line(leaves[j])
    {
      lines := lines + [Line(leaves[k])];
    }
  }

  method FlatProperties(document: Json) returns (out: Result<string>)
    ensures out == Flat(document)
  {
    hide WalkEnv, ArrayFree, Lines, Join;
    var walker := new Walker();
    var ok := walker.Walk(document);
    if !ok {
      return Err;
    }
    assert walker.leaves == WalkEnv(document, []);
    var lines := LinesOf(walker.leaves);
    out := Ok(Join(lines, "\n") + "\n");
  }

  /** What is before and after the first separator that no backslash takes. */
  function SplitBare(line: string): Option<(string, string)> {
    if line == "" then None
    else if line[0] == '=' || line[0] == ':' then Some(("", line[1..]))
    else
      var taken := if line[0] == '\\' && |line| > 1 then 2 else 1;
      match SplitBare(line[taken..])
      case None => None
      case Some((before, after)) => Some((line[..taken] + before, after))
  }

  /** A line splits exactly where it has a bare separator. */
  lemma {:induction false} SplitBareExactly(line: string)
    ensures SplitBare(line).Some? <==> HasBare(line, '=') || HasBare(line, ':')
    ensures SplitBare(line).Some? ==>
              !HasBare(SplitBare(line).value.0, '=') && !HasBare(SplitBare(line).value.0, ':')
    decreases |line|
  {
    if line != "" && line[0] != '=' && line[0] != ':' {
      var taken := if line[0] == '\\' && |line| > 1 then 2 else 1;
      SplitBareExactly(line[taken..]);
      if SplitBare(line[taken..]).Some? {
        var before := SplitBare(line[taken..]).value.0;
        assert (line[..taken] + before)[taken..] == before;
      }
    }
  }

  lemma {:induction false} SplitBareAt(before: string, after: string)
    requires Free(before, '\\') && Free(before, '=') && Free(before, ':')
    ensures SplitBare(before + ['='] + after) == Some((before, after))
  {
    var line := before + ['='] + after;
    if before == "" {
      assert line[1..] == after;
    } else {
      assert line[1..] == before[1..] + ['='] + after;
      SplitBareAt(before[1..], after);
      assert line[..1] + before[1..] == before;
    }
  }

  /** One line read: the path before the separator split at its dots, and the value
      unescaped. A value that a second reader could split again is not one. */
  function ReadLine(line: string): Option<(seq<string>, string)> {
    match SplitBare(line)
    case None => None
    case Some((before, after)) =>
      if |before| < 1 || |after| < 1 || !Sealed(after[1..]) then None
      else Some((Split(before[..|before| - 1], '.'), Unescape(after[1..])))
  }

  function ReadLines(lines: seq<string>): Option<seq<(seq<string>, string)>> {
    if lines == [] then Some([])
    else if lines[0] == "" then ReadLines(lines[1..])
    else
      match (ReadLine(lines[0]), ReadLines(lines[1..]))
      case (Some(first), Some(rest)) => Some([first] + rest)
      case _ => None
  }

  /** A `.properties` file read back. */
  function Read(text: string): Option<seq<(seq<string>, string)>> {
    ReadLines(Split(text, '\n'))
  }

  function Texts(leaves: seq<Leaf>): (texts: seq<(seq<string>, string)>)
    ensures |texts| == |leaves|
    ensures forall k :: 0 <= k < |leaves| ==> texts[k] == (leaves[k].0, ScalarText(leaves[k].1))
  {
    if leaves == [] then [] else [(leaves[0].0, ScalarText(leaves[0].1))] + Texts(leaves[1..])
  }

  predicate CleanKey(key: string) {
    Free(key, '.') && Free(key, '=') && Free(key, ':') && Free(key, '\\') && Free(key, '\n')
  }

  predicate CleanPath(path: seq<string>) {
    forall k :: 0 <= k < |path| ==> CleanKey(path[k])
  }

  predicate CleanKeys(value: Json)
  {
    value.Table? ==> CleanEntries(value.entries)
  }

  predicate CleanEntries(entries: Entries)
  {
    entries.Nil? || (CleanKey(entries.key) && CleanKeys(entries.value) && CleanEntries(entries.rest))
  }

  ghost predicate CleanLeaves(leaves: seq<Leaf>) {
    forall k :: 0 <= k < |leaves| ==> leaves[k].0 != [] && CleanPath(leaves[k].0)
  }

  lemma {:induction false} LeavesClean(value: Json, path: seq<string>)
    requires CleanKeys(value) && CleanPath(path) && (path != [] || value.Table?)
    ensures CleanLeaves(WalkEnv(value, path))
  {
    if value.Table? {
      EntriesClean(value.entries, path);
    }
  }

  lemma {:induction false} EntriesClean(entries: Entries, path: seq<string>)
    requires CleanEntries(entries) && CleanPath(path)
    ensures CleanLeaves(WalkEnvEntries(entries, path))
  {
    if entries.Entry? {
      LeavesClean(entries.value, path + [entries.key]);
      EntriesClean(entries.rest, path);
    }
  }

  lemma PathReadsBack(path: seq<string>)
    requires path != [] && CleanPath(path)
    ensures Split(Join(path, "."), '.') == path
    ensures Free(Join(path, "."), '=') && Free(Join(path, "."), ':') && Free(Join(path, "."), '\\')
    ensures Free(Join(path, "."), '\n')
  {
    forall k | 0 <= k < |path| ensures CleanKey(path[k]) {
    }
    JoinKeepsFree(path, ".", '=');
    JoinKeepsFree(path, ".", ':');
    JoinKeepsFree(path, ".", '\\');
    JoinKeepsFree(path, ".", '\n');
    SplitJoin(path, '.', "");
    assert ['.'] + "" == ".";
    PaddedNothing(path[1..]);
  }

  lemma LineReadsBack(leaf: Leaf)
    requires leaf.0 != [] && CleanPath(leaf.0)
    ensures ReadLine(Line(leaf)) == Some((leaf.0, ScalarText(leaf.1)))
    ensures Free(Line(leaf), '\n') && Line(leaf) != ""
  {
    var path, value := Join(leaf.0, "."), PropertiesScalar(leaf.1);
    PathReadsBack(leaf.0);
    ScalarReadsBack(leaf.1);
    hide Join, PropertiesScalar, Unescape, Split, SplitBare, ScalarText, HasBare;
    assert Line(leaf) == (path + " ") + ['='] + (" " + value);
    SplitBareAt(path + " ", " " + value);
    assert (path + " ")[..|path|] == path && (" " + value)[1..] == value;
  }

  lemma {:induction false} LinesReadBack(leaves: seq<Leaf>)
    requires CleanLeaves(leaves)
    ensures ReadLines(Lines(leaves)) == Some(Texts(leaves))
  {
    if leaves != [] {
      LineReadsBack(leaves[0]);
      LinesReadBack(leaves[1..]);
    }
  }

  lemma {:induction false} ReadLinesEnd(lines: seq<string>)
    ensures ReadLines(lines + [""]) == ReadLines(lines)
  {
    if lines != [] {
      assert (lines + [""])[1..] == lines[1..] + [""];
      ReadLinesEnd(lines[1..]);
    } else {
      assert lines + [""] == [""];
    }
  }

  lemma {:induction false} SplitEnds(text: string, c: char)
    ensures Split(text + [c], c) == Split(text, c) + [""]
  {
    if text == "" {
      assert text + [c] == [c];
      assert Split([c][1..], c) == [""];
    } else {
      assert (text + [c])[1..] == text[1..] + [c];
      SplitEnds(text[1..], c);
    }
  }

  lemma BodySplits(leaves: seq<Leaf>)
    requires CleanLeaves(leaves)
    ensures ReadLines(Split(Join(Lines(leaves), "\n"), '\n')) == ReadLines(Lines(leaves))
  {
    hide ReadLine, Line, CleanPath;
    if leaves != [] {
      forall k | 0 <= k < |leaves| ensures Free(Lines(leaves)[k], '\n') {
        LineReadsBack(leaves[k]);
      }
      SplitJoin(Lines(leaves), '\n', "");
      assert ['\n'] + "" == "\n";
      PaddedNothing(Lines(leaves)[1..]);
      assert [Lines(leaves)[0]] + Lines(leaves)[1..] == Lines(leaves);
    }
  }

  /** Nothing is lost: a reader that takes the first separator no backslash takes, and no
      value with another in it, gives exactly the leaves of the document, in order and with
      their own text, for every document whose keys hold no separator and no backslash.
      And a document is refused exactly when it holds an array. */
  lemma PropertiesReadBack(document: Json)
    requires document.Table? && CleanKeys(document)
    ensures Flat(document).Ok? <==> ArrayFree(document)
    ensures Flat(document).Ok? ==> Read(Flat(document).value) == Some(Texts(WalkEnv(document, [])))
  {
    var leaves := WalkEnv(document, []);
    var body := Join(Lines(leaves), "\n");
    LeavesClean(document, []);
    hide WalkEnv, CleanKeys, ArrayFree, Lines, Join, Split, ReadLines;
    LinesReadBack(leaves);
    BodySplits(leaves);
    SplitEnds(body, '\n');
    ReadLinesEnd(Split(body, '\n'));
    assert ['\n'] == "\n";
  }
}
