/** JSON values, pointers (RFC 6901) and the patch operations of RFC 6902, sections 4.1 to 4.3. */
module JsonPatch {
  import opened Wrappers
  import opened Text

  datatype Json =
    | Null
    | Bool(truth: bool)
    | Number(n: int)
    | Word(text: string)
    | Array(items: seq<Json>)
    | Object(fields: map<string, Json>)

  /** Reference tokens that lead somewhere inside the document. */
  type Path = tokens: seq<string> | tokens != [] witness ["-"]

  /** An operation; none is on the document as a whole. */
  datatype Op =
    | Add(path: Path, value: Json)
    | Replace(path: Path, value: Json)
    | Remove(path: Path)

  // ----- pointers -------------------------------------------------------------------

  function EscapeToken(token: string): string {
    if token == "" then ""
    else
      (if token[0] == '~' then "~0" else if token[0] == '/' then "~1" else [token[0]]) + EscapeToken(token[1..])
  }

  function UnescapeToken(text: string): Option<string> {
    if text == "" then Some("")
    else if text[0] != '~' then
      (match UnescapeToken(text[1..])
       case Some(rest) => Some([text[0]] + rest)
       case None => None)
    else if |text| > 1 && (text[1] == '0' || text[1] == '1') then
      (match UnescapeToken(text[2..])
       case Some(rest) => Some([if text[1] == '0' then '~' else '/'] + rest)
       case None => None)
    else None
  }

  function Pointer(tokens: seq<string>): string {
    if tokens == [] then "" else "/" + EscapeToken(tokens[0]) + Pointer(tokens[1..])
  }

  function UnescapeAll(texts: seq<string>): Option<seq<string>> {
    if texts == [] then Some([])
    else
      match (UnescapeToken(texts[0]), UnescapeAll(texts[1..]))
      case (Some(first), Some(rest)) => Some([first] + rest)
      case _ => None
  }

  function Tokens(pointer: string): Option<seq<string>> {
    if pointer == "" then Some([])
    else if pointer[0] == '/' then UnescapeAll(Split(pointer[1..], '/'))
    else None
  }

  lemma {:induction false} TokenReadsBack(token: string)
    ensures UnescapeToken(EscapeToken(token)) == Some(token)
    ensures Free(EscapeToken(token), '/')
  {
    if token != "" {
      TokenReadsBack(token[1..]);
      var escaped, first := EscapeToken(token), if token[0] == '~' || token[0] == '/' then 2 else 1;
      assert escaped[first..] == EscapeToken(token[1..]);
      assert token == [token[0]] + token[1..];
    }
  }

  /** A pointer is its first token and the pointer of the rest. */
  lemma FirstToken(pointer: string, escaped: string, rest: string)
    requires pointer == ['/'] + escaped + rest && Free(escaped, '/')
    requires rest == "" || (rest != "" && rest[0] == '/')
    ensures Tokens(pointer) == UnescapeAll([escaped] + if rest == "" then [] else Split(rest[1..], '/'))
  {
    hide UnescapeAll, Split;
    assert pointer[1..] == escaped + rest;
    if rest == "" {
      assert pointer[1..] == escaped;
      SplitFree(escaped, '/');
      assert [escaped] + [] == [escaped];
    } else {
      assert pointer[1..] == escaped + ['/'] + rest[1..];
      SplitAt(escaped, '/', rest[1..]);
    }
  }

  /** The path the webhook writes, `~1` for a slash inside a key, is read as its tokens. */
  lemma {:induction false} PointerReadsBack(tokens: seq<string>)
    ensures Tokens(Pointer(tokens)) == Some(tokens)
  {
    if tokens != [] {
      var escaped, rest := EscapeToken(tokens[0]), Pointer(tokens[1..]);
      PointerReadsBack(tokens[1..]);
      TokenReadsBack(tokens[0]);
      hide UnescapeToken, EscapeToken, Split, UnescapeAll;
      assert Pointer(tokens) == ['/'] + escaped + rest;
      FirstToken(Pointer(tokens), escaped, rest);
      var texts := if rest == "" then [] else Split(rest[1..], '/');
      assert [tokens[0]] + tokens[1..] == tokens;
    }
  }

  // ----- operations -----------------------------------------------------------------

  /** The position a token names in an array: digits without a leading zero. */
  function Index(token: string): Option<nat> {
    match Digits(token, 10)
    case Some(n) => if Decimal(n) == token then Some(n) else None
    case None => None
  }

  lemma IndexReadsBack(n: nat)
    ensures Index(Decimal(n)) == Some(n)
  {
    NumeralReads(n, 10);
  }

  function OnField(fields: map<string, Json>, key: string, op: Op): Result<Json> {
    match op
    case Add(_, value) => Ok(Object(fields[key := value]))
    case Replace(_, value) => if key in fields then Ok(Object(fields[key := value])) else Err
    case Remove(_) => if key in fields then Ok(Object(fields - {key})) else Err
  }

  /** What an operation does to one member of an object: `replace` and `remove` need it there. */
  lemma OnFieldExactly(fields: map<string, Json>, key: string, op: Op)
    ensures OnField(fields, key, op).Ok? <==> op.Add? || key in fields
    ensures OnField(fields, key, op).Ok? ==>
              var after := OnField(fields, key, op).value;
              && after.Object?
              && (forall other :: other != key ==>
                    (other in after.fields <==> other in fields) && (other in fields ==> after.fields[other] == fields[other]))
              && (op.Remove? ==> key !in after.fields)
              && (!op.Remove? ==> key in after.fields && after.fields[key] == op.value)
  {
  }

  function OnItem(items: seq<Json>, token: string, op: Op): Result<Json> {
    if op.Add? && token == "-" then Ok(Array(items + [op.value]))
    else
      match Index(token)
      case None => Err
      case Some(n) =>
        (match op
         case Add(_, value) => if n <= |items| then Ok(Array(items[..n] + [value] + items[n..])) else Err
         case Replace(_, value) => if n < |items| then Ok(Array(items[n := value])) else Err
         case Remove(_) => if n < |items| then Ok(Array(items[..n] + items[n + 1..])) else Err)
  }

  /** What one does to an item: an `add` makes room for it, at the end for `-`, and a `remove`
      there undoes it; the position is there, or for an `add` just past the end. */
  lemma OnItemExactly(path: Path, items: seq<Json>, n: nat, value: Json, token: string)
    ensures OnItem(items, "-", Op.Add(path, value)) == Ok(Array(items + [value]))
    ensures OnItem(items, Decimal(n), Op.Add(path, value)).Ok? <==> n <= |items|
    ensures n <= |items| ==>
              var after := OnItem(items, Decimal(n), Op.Add(path, value)).value;
              && after.Array? && |after.items| == |items| + 1 && after.items[n] == value
              && (forall k :: 0 <= k < n ==> after.items[k] == items[k])
              && (forall k :: n <= k < |items| ==> after.items[k + 1] == items[k])
              && OnItem(after.items, Decimal(n), Op.Remove(path)) == Ok(Array(items))
    ensures OnItem(items, Decimal(n), Op.Replace(path, value)) == if n < |items| then Ok(Array(items[n := value])) else Err
    ensures OnItem(items, Decimal(n), Op.Remove(path)).Ok? <==> n < |items|
    ensures token != "-" && (forall k: nat :: token != Decimal(k)) ==> OnItem(items, token, Op.Add(path, value)) == Err
  {
    IndexReadsBack(n);
    hide Index, Decimal;
    assert Decimal(n) != "-" by {
      NotDash(n);
    }
    if n <= |items| {
      var after := items[..n] + [value] + items[n..];
      assert after[..n] + after[n + 1..] == items;
    }
    if Index(token).Some? {
      IndexIsDecimal(token);
    }
  }

  lemma NotDash(n: nat)
    ensures Decimal(n) != "-"
  {
    NumeralReads(n, 10);
    assert Digits("-", 10).None?;
  }

  lemma IndexIsDecimal(token: string)
    requires Index(token).Some?
    ensures token == Decimal(Index(token).value)
  {
  }

  /** One operation on the value its path leads to. */
  function At(json: Json, path: seq<string>, op: Op): Result<Json>
    decreases |path|
  {
    if path == [] then (if op.Remove? then Err else Ok(op.value))
    else
      match json
      case Object(fields) =>
        if |path| == 1 then OnField(fields, path[0], op)
        else if path[0] !in fields then Err
        else
          var child :- At(fields[path[0]], path[1..], op);
          Ok(Object(fields[path[0] := child]))
      case Array(items) =>
        if |path| == 1 then OnItem(items, path[0], op)
        else
          (match Index(path[0])
           case None => Err
           case Some(n) =>
             if n >= |items| then Err
             else
               var child :- At(items[n], path[1..], op);
               Ok(Array(items[n := child])))
      case _ => Err
  }

  function Apply(json: Json, op: Op): Result<Json> {
    At(json, op.path, op)
  }

  /** The operations in order; the first that fails fails the patch. */
  function Run(json: Json, ops: seq<Op>): Result<Json>
    decreases |ops|
  {
    if ops == [] then Ok(json)
    else
      var next :- Apply(json, ops[0]);
      Run(next, ops[1..])
  }

  // ----- running under a prefix -----------------------------------------------------

  /** The operations, one step further down. */
  function Under(token: string, ops: seq<Op>): (deeper: seq<Op>)
    ensures |deeper| == |ops|
  {
    if ops == [] then []
    else
      [match ops[0]
       case Add(path, value) => Add([token] + path, value)
       case Replace(path, value) => Replace([token] + path, value)
       case Remove(path) => Remove([token] + path)] + Under(token, ops[1..])
  }

  lemma {:induction false} UnderJoin(token: string, a: seq<Op>, b: seq<Op>)
    ensures Under(token, a + b) == Under(token, a) + Under(token, b)
  {
    if a == [] {
      assert a + b == b;
    } else {
      assert (a + b)[1..] == a[1..] + b;
      UnderJoin(token, a[1..], b);
    }
  }

  lemma {:induction false} RunJoin(json: Json, a: seq<Op>, b: seq<Op>)
    ensures Run(json, a + b) == match Run(json, a) { case Err => Err case Ok(next) => Run(next, b) }
    decreases |a|
  {
    hide Apply;
    if a == [] {
      assert a + b == b;
    } else {
      assert (a + b)[1..] == a[1..] + b;
      if Apply(json, a[0]).Ok? {
        RunJoin(Apply(json, a[0]).value, a[1..], b);
      }
    }
  }

  lemma ApplyUnderField(fields: map<string, Json>, key: string, op: Op)
    requires key in fields
    ensures Apply(Object(fields), Under(key, [op])[0]) ==
              match Apply(fields[key], op) { case Err => Err case Ok(child) => Ok(Object(fields[key := child])) }
  {
    var deeper := Under(key, [op])[0];
    assert deeper.path[1..] == op.path;
    SamePath(fields[key], op.path, op, deeper);
  }

  /** Only the kind and the value of an operation matter once its path is walked. */
  lemma {:induction false} SamePath(json: Json, path: seq<string>, op: Op, other: Op)
    requires op.Add? == other.Add? && op.Replace? == other.Replace?
    requires !op.Remove? ==> op.value == other.value
    ensures At(json, path, op) == At(json, path, other)
    decreases |path|
  {
    hide Index;
    if |path| > 1 {
      match json
      case Object(fields) =>
        if path[0] in fields {
          SamePath(fields[path[0]], path[1..], op, other);
        }
      case Array(items) =>
        if Index(path[0]).Some? && Index(path[0]).value < |items| {
          SamePath(items[Index(path[0]).value], path[1..], op, other);
        }
      case _ =>
    }
  }

  /** Operations under a field act on that field's value and on nothing else. */
  lemma {:induction false} RunUnderField(fields: map<string, Json>, key: string, ops: seq<Op>)
    requires key in fields
    ensures Run(Object(fields), Under(key, ops)) ==
              match Run(fields[key], ops) { case Err => Err case Ok(child) => Ok(Object(fields[key := child])) }
    decreases |ops|
  {
    hide Apply;
    if ops == [] {
      assert fields[key := fields[key]] == fields;
    } else {
      ApplyUnderField(fields, key, ops[0]);
      assert Under(key, ops)[0] == Under(key, [ops[0]])[0];
      assert Under(key, ops)[1..] == Under(key, ops[1..]);
      var next := Apply(fields[key], ops[0]);
      if next.Ok? {
        RunUnderField(fields[key := next.value], key, ops[1..]);
        var done := Run(next.value, ops[1..]);
        if done.Ok? {
          assert fields[key := next.value][key := done.value] == fields[key := done.value];
        }
      }
    }
  }

  lemma ApplyUnderItem(items: seq<Json>, k: nat, op: Op)
    requires k < |items|
    ensures Apply(Array(items), Under(Decimal(k), [op])[0]) ==
              match Apply(items[k], op) { case Err => Err case Ok(child) => Ok(Array(items[k := child])) }
  {
    var deeper := Under(Decimal(k), [op])[0];
    assert deeper.path[1..] == op.path;
    IndexReadsBack(k);
    hide Index, Decimal;
    SamePath(items[k], op.path, op, deeper);
  }

  /** And under an index, on that item. */
  lemma {:induction false} RunUnderItem(items: seq<Json>, k: nat, ops: seq<Op>)
    requires k < |items|
    ensures Run(Array(items), Under(Decimal(k), ops)) ==
              match Run(items[k], ops) { case Err => Err case Ok(child) => Ok(Array(items[k := child])) }
    decreases |ops|
  {
    hide Apply, Decimal;
    if ops == [] {
      assert items[k := items[k]] == items;
    } else {
      ApplyUnderItem(items, k, ops[0]);
      assert Under(Decimal(k), ops)[0] == Under(Decimal(k), [ops[0]])[0];
      assert Under(Decimal(k), ops)[1..] == Under(Decimal(k), ops[1..]);
      var next := Apply(items[k], ops[0]);
      if next.Ok? {
        RunUnderItem(items[k := next.value], k, ops[1..]);
        var done := Run(next.value, ops[1..]);
        if done.Ok? {
          assert items[k := next.value][k := done.value] == items[k := done.value];
        }
      }
    }
  }

  /** One list of operations for each item of an array. */
  function Each(lists: seq<seq<Op>>): seq<Op>
    decreases |lists|
  {
    if lists == [] then []
    else Each(lists[..|lists| - 1]) + Under(Decimal(|lists| - 1), lists[|lists| - 1])
  }

  /** They run item by item, without disturbing each other. */
  lemma {:induction false} RunEach(items: seq<Json>, lists: seq<seq<Op>>, out: seq<Json>)
    requires |lists| <= |items| == |out|
    requires forall k :: 0 <= k < |lists| ==> Run(items[k], lists[k]) == Ok(out[k])
    ensures Run(Array(items), Each(lists)) == Ok(Array(out[..|lists|] + items[|lists|..]))
    decreases |lists|
  {
    hide Apply, Decimal;
    if lists == [] {
      assert out[..0] + items[0..] == items;
    } else {
      var n := |lists| - 1;
      var before := out[..n] + items[n..];
      RunEach(items, lists[..n], out);
      RunJoin(Array(items), Each(lists[..n]), Under(Decimal(n), lists[n]));
      RunUnderItem(before, n, lists[n]);
      assert before[n] == items[n];
      assert before[n := out[n]] == out[..n + 1] + items[n + 1..];
    }
  }

  function Appends(values: seq<Json>): (ops: seq<Op>)
    ensures |ops| == |values|
    ensures forall k :: 0 <= k < |values| ==> ops[k] == Add(["-"], values[k])
  {
    if values == [] then [] else [Add(["-"], values[0])] + Appends(values[1..])
  }

  lemma {:induction false} RunAppends(items: seq<Json>, values: seq<Json>)
    ensures Run(Array(items), Appends(values)) == Ok(Array(items + values))
    decreases |values|
  {
    if values == [] {
      assert items + values == items;
    } else {
      RunAppends(items + [values[0]], values[1..]);
      assert items + [values[0]] + values[1..] == items + values;
    }
  }

  // ----- creating an array and filling it -------------------------------------------

  function ArrayAt(fields: map<string, Json>, key: string): seq<Json> {
    if key in fields && fields[key].Array? then fields[key].items else []
  }

  /** The operations on an array field, after one that creates it if it is not there. */
  function Into(fields: map<string, Json>, key: string, ops: seq<Op>): seq<Op> {
    (if key in fields then [] else [Add([key], Array([]))]) + Under(key, ops)
  }

  lemma RunInto(fields: map<string, Json>, key: string, ops: seq<Op>, out: seq<Json>)
    requires key in fields ==> fields[key].Array?
    requires Run(Array(ArrayAt(fields, key)), ops) == Ok(Array(out))
    ensures Run(Object(fields), Into(fields, key, ops)) == Ok(Object(fields[key := Array(out)]))
  {
    hide Run, Under;
    if key in fields {
      RunUnderField(fields, key, ops);
      assert [] + Under(key, ops) == Under(key, ops);
    } else {
      var created := fields[key := Array([])];
      RunOne(Object(fields), Add([key], Array([])), Object(created));
      RunJoin(Object(fields), [Add([key], Array([]))], Under(key, ops));
      RunUnderField(created, key, ops);
      assert created[key := Array(out)] == fields[key := Array(out)];
    }
  }

  lemma RunOne(json: Json, op: Op, out: Json)
    requires Apply(json, op) == Ok(out)
    ensures Run(json, [op]) == Ok(out)
  {
    hide Apply;
    assert [op][1..] == [];
  }
}
