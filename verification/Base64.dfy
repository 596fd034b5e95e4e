/** The two base64 encoders and the decoder. A shift or mask of a u32 is written as the
    division, product or remainder by the power of two it stands for; `|` joins parts
    whose bits do not meet, so it is their sum. */
module Base64 {
  import opened Wrappers

  type byte = x: int | 0 <= x < 256

  /** A u32 keeps what fits: the bits shifted off the top are gone. */
  const WORD: int := 0x1_0000_0000

  /** The alphabet, in the order of Table 1 in section 4 of RFC 4648. */
  function Letter(v: nat): char
    requires v < 64
  {
    if v < 26 then 'A' + v as char
    else if v < 52 then 'a' + (v - 26) as char
    else if v < 62 then '0' + (v - 52) as char
    else if v == 62 then '+' else '/'
  }

  // ----- the agent's encoder --------------------------------------------------------

  /** Up to three bytes, read as one number; a missing byte reads as zero. */
  function Block(chunk: seq<byte>): (n: nat)
    requires 1 <= |chunk| <= 3
    ensures n < 0x100_0000
  {
    var b0: int, b1: int, b2: int :=
      chunk[0], if |chunk| > 1 then chunk[1] else 0, if |chunk| > 2 then chunk[2] else 0;
    b0 * 65_536 + b1 * 256 + b2
  }

  /** The block of bytes starting at `at`, which the loops take one at a time. */
  function ChunkAt(bytes: seq<byte>, at: nat): (chunk: seq<byte>)
    requires at < |bytes|
    ensures 1 <= |chunk| <= 3 && at + |chunk| <= |bytes|
  {
    if at + 3 <= |bytes| then bytes[at..at+3] else bytes[at..]
  }

  /** Six bits of a block: `block >> (18 - index * 6) & 0x3F`. */
  function Sextet(block: nat, index: nat): (v: nat)
    requires index < 4
    ensures v < 64
  {
    (if index == 0 then block / 262_144 else if index == 1 then block / 4_096
     else if index == 2 then block / 64 else block) % 64
  }

  function Symbol(chunk: seq<byte>, index: nat): char
    requires 1 <= |chunk| <= 3 && index < 4
  {
    if index <= |chunk| then Letter(Sextet(Block(chunk), index)) else '='
  }

  function EncodeChunk(chunk: seq<byte>): (s: string)
    requires 1 <= |chunk| <= 3
    ensures |s| == 4
    ensures forall index :: 0 <= index < 4 ==> s[index] == Symbol(chunk, index)
  {
    [Symbol(chunk, 0), Symbol(chunk, 1), Symbol(chunk, 2), Symbol(chunk, 3)]
  }

  function Encode(bytes: seq<byte>, at: nat := 0): string
    requires at <= |bytes|
    decreases |bytes| - at
  {
    if at == |bytes| then ""
    else
      var chunk := ChunkAt(bytes, at);
      EncodeChunk(chunk) + Encode(bytes, at + |chunk|)
  }

  /** The inner loop: a symbol for each sextet the block has bytes for, then padding. */
  method AgentBlock(chunk: seq<byte>) returns (symbols: string)
    requires 1 <= |chunk| <= 3
    ensures symbols == EncodeChunk(chunk)
  {
    hide Block, Sextet, Letter;
    var block := Block(chunk);
    symbols := "";
    for index := 0 to 4
      invariant |symbols| == index
      invariant forall k :: 0 <= k < index ==> symbols[k] == Symbol(chunk, k)
    {
      if index <= |chunk| {
        symbols := symbols + [Letter(Sextet(block, index))];
      } else {
        symbols := symbols + ['='];
      }
    }
  }

  method AgentBase64(bytes: seq<byte>) returns (encoded: string)
    ensures encoded == Encode(bytes)
  {
    hide Block, Sextet, Letter, EncodeChunk, Symbol;
    encoded := "";
    var at := 0;
    while at < |bytes|
      invariant 0 <= at <= |bytes|
      invariant encoded + Encode(bytes, at) == Encode(bytes)
    {
      var chunk := ChunkAt(bytes, at);
      var symbols := AgentBlock(chunk);
      assert (encoded + symbols) + Encode(bytes, at + |chunk|) == encoded + (symbols + Encode(bytes, at + |chunk|));
      encoded := encoded + symbols;
      at := at + |chunk|;
    }
  }

  // ----- the webhook's encoder ------------------------------------------------------

  function EncodeWebhookChunk(chunk: seq<byte>): string
    requires 1 <= |chunk| <= 3
  {
    var n := Block(chunk);
    [Letter(n / 262_144 % 64), Letter(n / 4_096 % 64),
     if |chunk| > 1 then Letter(n / 64 % 64) else '=',
     if |chunk| > 2 then Letter(n % 64) else '=']
  }

  function EncodeWebhook(bytes: seq<byte>, at: nat := 0): string
    requires at <= |bytes|
    decreases |bytes| - at
  {
    if at == |bytes| then ""
    else
      var chunk := ChunkAt(bytes, at);
      EncodeWebhookChunk(chunk) + EncodeWebhook(bytes, at + |chunk|)
  }

  method WebhookBlock(chunk: seq<byte>) returns (out: string)
    requires 1 <= |chunk| <= 3
    ensures out == EncodeWebhookChunk(chunk)
  {
    hide Block, Letter;
    var n := Block(chunk);
    out := [Letter(n / 262_144 % 64)];
    out := out + [Letter(n / 4_096 % 64)];
    out := out + [if |chunk| > 1 then Letter(n / 64 % 64) else '='];
    out := out + [if |chunk| > 2 then Letter(n % 64) else '='];
  }

  method WebhookBase64(bytes: seq<byte>) returns (out: string)
    ensures out == EncodeWebhook(bytes)
  {
    hide Block, Letter, EncodeWebhookChunk;
    out := "";
    var at := 0;
    while at < |bytes|
      invariant 0 <= at <= |bytes|
      invariant out + EncodeWebhook(bytes, at) == EncodeWebhook(bytes)
    {
      var chunk := ChunkAt(bytes, at);
      var symbols := WebhookBlock(chunk);
      assert (out + symbols) + EncodeWebhook(bytes, at + |chunk|) == out + (symbols + EncodeWebhook(bytes, at + |chunk|));
      out := out + symbols;
      at := at + |chunk|;
    }
  }

  /** The two encoders, written apart, agree on every input. */
  lemma {:induction false} EncodersAgree(bytes: seq<byte>, at: nat := 0)
    requires at <= |bytes|
    ensures EncodeWebhook(bytes, at) == Encode(bytes, at)
    decreases |bytes| - at
  {
    if at < |bytes| {
      EncodersAgree(bytes, at + |ChunkAt(bytes, at)|);
    }
  }

  // ----- the decoder ----------------------------------------------------------------

  datatype Meaning = Bits(value: nat) | Skipped | Refused

  function Meant(c: char): (m: Meaning)
    ensures m.Bits? ==> m.value < 64
  {
    if 'A' <= c <= 'Z' then Bits((c - 'A') as nat)
    else if 'a' <= c <= 'z' then Bits((c - 'a') as nat + 26)
    else if '0' <= c <= '9' then Bits((c - '0') as nat + 52)
    else if c == '+' then Bits(62)
    else if c == '/' then Bits(63)
    else if c == '=' || c == '\n' || c == '\r' then Skipped
    else Refused
  }

  predicate Held(held: nat) {
    held == 0 || held == 2 || held == 4 || held == 6
  }

  /** `1 << held`, for as many bits as the loop ever keeps. */
  function Power(held: nat): (p: nat)
    requires Held(held)
    ensures p > 0
  {
    if held == 0 then 1 else if held == 2 then 4 else if held == 4 then 16 else 64
  }

  /** What was decoded before, followed by what is still to come. */
  function Onto(bytes: seq<byte>, rest: Option<seq<byte>>): Option<seq<byte>> {
    if rest.None? then None else Some(bytes + rest.value)
  }

  /** The loop of the decoder from a given accumulator. */
  function DecodeFrom(text: string, bits: nat, held: nat): Option<seq<byte>>
    requires Held(held) && bits < WORD
  {
    if text == "" then Some([])
    else
      match Meant(text[0])
      case Refused => None
      case Skipped => DecodeFrom(text[1..], bits, held)
      case Bits(value) =>
        var shifted := (bits * 64 + value) % WORD;
        if held < 2 then DecodeFrom(text[1..], shifted, held + 6)
        else
          Onto([shifted / Power(held - 2) % 256], DecodeFrom(text[1..], shifted, held - 2))
  }

  function Decode(text: string): Option<seq<byte>> {
    DecodeFrom(text, 0, 0)
  }

  lemma OntoOnto(bytes: seq<byte>, next: seq<byte>, rest: Option<seq<byte>>)
    ensures Onto(bytes, Onto(next, rest)) == Onto(bytes + next, rest)
  {
    if rest.Some? {
      assert bytes + (next + rest.value) == bytes + next + rest.value;
    }
  }

  method Unbase64(text: string) returns (decoded: Option<seq<byte>>)
    ensures decoded == Decode(text)
  {
    var bits, held := 0, 0;
    var bytes: seq<byte> := [];
    assert text[0..] == text;
    assert Decode(text) == Onto([], Decode(text)) by {
      if Decode(text).Some? {
        assert [] + Decode(text).value == Decode(text).value;
      }
    }
    for at := 0 to |text|
      invariant Held(held) && 0 <= bits < WORD
      invariant Decode(text) == Onto(bytes, DecodeFrom(text[at..], bits, held))
    {
      assert text[at..][0] == text[at] && text[at..][1..] == text[at+1..];
      match Meant(text[at]) {
        case Refused => return None;
        case Skipped =>
        case Bits(value) =>
          bits := (bits * 64 + value) % WORD;
          held := held + 6;
          if held >= 8 {
            held := held - 8;
            OntoOnto(bytes, [bits / Power(held) % 256], DecodeFrom(text[at+1..], bits, held));
            bytes := bytes + [bits / Power(held) % 256];
          }
      }
    }
    assert text[|text|..] == "" && bytes + [] == bytes;
    decoded := Some(bytes);
  }

  // ----- the round trip -------------------------------------------------------------

  lemma LetterMeans(v: nat)
    requires v < 64
    ensures Meant(Letter(v)) == Bits(v)
  {
  }

  // Only the bits still held matter, so those that fell off the top do not.

  lemma Shifted(bits: nat, value: nat) returns (lost: int)
    requires bits < WORD && value < 64
    ensures (bits * 64 + value) % WORD == bits * 64 + value - lost * WORD
  {
    lost := (bits * 64 + value) / WORD;
  }

  lemma LowBits2(bits: nat, value: nat)
    requires bits < WORD && value < 64
    ensures (bits * 64 + value) % WORD % 256 == bits % 4 * 64 + value
  {
    var lost := Shifted(bits, value);
    assert (bits * 64 + value) % WORD == 256 * (bits / 4 - lost * 16_777_216) + (bits % 4 * 64 + value);
  }

  lemma Split4(s: int, high: int, low: int)
    requires s == 1_024 * high + low && 0 <= low < 1_024
    ensures s / 4 % 256 == low / 4 && s % 4 == low % 4
  {
    assert s / 4 == 256 * high + low / 4;
  }

  lemma LowBits4(bits: nat, value: nat)
    requires bits < WORD && value < 64
    ensures (bits * 64 + value) % WORD / 4 % 256 == (bits % 16 * 64 + value) / 4
    ensures (bits * 64 + value) % WORD % 4 == value % 4
  {
    var lost := Shifted(bits, value);
    Split4((bits * 64 + value) % WORD, bits / 16 - lost * 4_194_304, bits % 16 * 64 + value);
  }

  lemma Split6(s: int, high: int, low: int)
    requires s == 4_096 * high + low && 0 <= low < 4_096
    ensures s / 16 % 256 == low / 16 && s % 16 == low % 16
  {
    assert s / 16 == 256 * high + low / 16;
  }

  lemma LowBits6(bits: nat, value: nat)
    requires bits < WORD && value < 64
    ensures (bits * 64 + value) % WORD / 16 % 256 == (bits % 64 * 64 + value) / 16
    ensures (bits * 64 + value) % WORD % 16 == value % 16
  {
    var lost := Shifted(bits, value);
    Split6((bits * 64 + value) % WORD, bits / 64 - lost * 1_048_576, bits % 64 * 64 + value);
  }

  lemma LowBits0(bits: nat, value: nat)
    requires bits < WORD && value < 64
    ensures (bits * 64 + value) % WORD % 64 == value
  {
    var lost := Shifted(bits, value);
    assert (bits * 64 + value) % WORD == 64 * (bits - lost * 67_108_864) + value;
  }

  lemma SextetsOf(b0: int, b1: int, b2: int)
    requires 0 <= b0 < 256 && 0 <= b1 < 256 && 0 <= b2 < 256
    ensures var block := b0 * 65_536 + b1 * 256 + b2;
            && block / 262_144 == b0 / 4 && block / 4_096 == b0 * 16 + b1 / 16
            && block / 64 == b0 * 1_024 + b1 * 4 + b2 / 64
            && Sextet(block, 0) == b0 / 4 && Sextet(block, 3) == b2 % 64
  {
  }

  lemma MiddleSextets(b0: int, b1: int, b2: int)
    requires 0 <= b0 < 256 && 0 <= b1 < 256 && 0 <= b2 < 256
    ensures (b0 * 16 + b1 / 16) % 64 == b0 % 4 * 16 + b1 / 16
    ensures (b0 * 1_024 + b1 * 4 + b2 / 64) % 64 == b1 % 16 * 4 + b2 / 64
  {
    assert b0 * 16 + b1 / 16 == 64 * (b0 / 4) + (b0 % 4 * 16 + b1 / 16);
    assert b0 * 1_024 + b1 * 4 + b2 / 64 == 64 * (b0 * 16 + b1 / 16) + (b1 % 16 * 4 + b2 / 64);
  }

  lemma Rejoined(b0: int, b1: int, b2: int)
    requires 0 <= b0 < 256 && 0 <= b1 < 256 && 0 <= b2 < 256
    ensures var s1, s2 := b0 % 4 * 16 + b1 / 16, b1 % 16 * 4 + b2 / 64;
            (b0 / 4 * 64 + s1) / 16 == b0 && (s1 % 16 * 64 + s2) / 4 == b1 && s2 % 4 * 64 + b2 % 64 == b2
  {
    assert (b0 % 4 * 16 + b1 / 16) % 16 == b1 / 16;
    assert (b1 % 16 * 4 + b2 / 64) % 4 == b2 / 64;
  }

  /** The four sextets of a block put together again are its bytes. */
  lemma Sextets(chunk: seq<byte>)
    requires 1 <= |chunk| <= 3
    ensures var block := Block(chunk);
            var s0, s1, s2, s3 := Sextet(block, 0), Sextet(block, 1), Sextet(block, 2), Sextet(block, 3);
            && (s0 * 64 + s1) / 16 == chunk[0]
            && (|chunk| > 1 ==> (s1 % 16 * 64 + s2) / 4 == chunk[1])
            && (|chunk| > 2 ==> s2 % 4 * 64 + s3 == chunk[2])
  {
    var b0: int, b1: int, b2: int :=
      chunk[0], if |chunk| > 1 then chunk[1] else 0, if |chunk| > 2 then chunk[2] else 0;
    var block := Block(chunk);
    assert block == b0 * 65_536 + b1 * 256 + b2;
    SextetsOf(b0, b1, b2);
    MiddleSextets(b0, b1, b2);
    assert Sextet(block, 1) == b0 % 4 * 16 + b1 / 16 && Sextet(block, 2) == b1 % 16 * 4 + b2 / 64;
    hide Block, Sextet;
    Rejoined(b0, b1, b2);
  }

  lemma FirstDecodes(v: nat, rest: string, bits: nat)
    requires v < 64 && bits < WORD
    ensures DecodeFrom([Letter(v)] + rest, bits, 0) == DecodeFrom(rest, (bits * 64 + v) % WORD, 6)
    ensures (bits * 64 + v) % WORD % 64 == v
  {
    LetterMeans(v);
    LowBits0(bits, v);
    assert ([Letter(v)] + rest)[1..] == rest;
  }

  lemma NextDecodes(v: nat, rest: string, bits: nat, held: nat, low: nat)
    requires Held(held) && held > 0 && v < 64 && bits < WORD && bits % Power(held) == low
    ensures DecodeFrom([Letter(v)] + rest, bits, held) ==
            Onto([(low * 64 + v) / Power(held - 2)], DecodeFrom(rest, (bits * 64 + v) % WORD, held - 2))
    ensures (bits * 64 + v) % WORD % Power(held - 2) == v % Power(held - 2)
    ensures (low * 64 + v) / Power(held - 2) < 256
  {
    LetterMeans(v);
    assert ([Letter(v)] + rest)[1..] == rest;
    if held == 6 {
      LowBits6(bits, v);
    } else if held == 4 {
      LowBits4(bits, v);
    } else {
      LowBits2(bits, v);
    }
  }

  lemma PaddingDecodes(rest: string, bits: nat, held: nat)
    requires Held(held) && bits < WORD && (forall k :: 0 <= k < |rest| ==> rest[k] == '=')
    ensures DecodeFrom(rest, bits, held) == Some([])
  {
  }

  /** Reading one encoded block from an empty hand, whatever the accumulator last held. */
  lemma ChunkDecodes(chunk: seq<byte>, rest: string, bits: nat) returns (after: nat)
    requires 1 <= |chunk| <= 3 && bits < WORD
    requires |chunk| < 3 ==> rest == ""
    ensures after < WORD
    ensures DecodeFrom(EncodeChunk(chunk) + rest, bits, 0) == Onto(chunk, DecodeFrom(rest, after, 0))
  {
    var block := Block(chunk);
    var s0, s1, s2, s3 := Sextet(block, 0), Sextet(block, 1), Sextet(block, 2), Sextet(block, 3);
    var a := (bits * 64 + s0) % WORD;
    var b := (a * 64 + s1) % WORD;
    var text := EncodeChunk(chunk) + rest;
    Sextets(chunk);
    assert text == [Letter(s0)] + ([Letter(s1)] + text[2..]);
    assert |chunk| > 1 ==> text[2..] == [Letter(s2)] + text[3..];
    assert |chunk| > 2 ==> text[3..] == [Letter(s3)] + rest;
    assert |chunk| <= 2 ==> text[3..] == "=";
    assert |chunk| == 1 ==> text[2..] == "==";
    hide Block, Sextet, Letter, DecodeFrom, EncodeChunk, Onto;
    FirstDecodes(s0, [Letter(s1)] + text[2..], bits);
    NextDecodes(s1, text[2..], a, 6, s0);
    if |chunk| == 1 {
      after := 0;
      PaddingDecodes(text[2..], b, 4);
      PaddingDecodes("", 0, 0);
      assert chunk == [chunk[0]];
    } else {
      after := SecondDecodes(chunk, s1 % 16, s2, s3, text[2..], rest, b);
      OntoOnto([chunk[0]], chunk[1..], DecodeFrom(rest, after, 0));
      assert [chunk[0]] + chunk[1..] == chunk;
    }
  }

  lemma SecondDecodes(chunk: seq<byte>, low: nat, s2: nat, s3: nat, text: string, rest: string, bits: nat)
      returns (after: nat)
    requires 2 <= |chunk| <= 3 && bits < WORD && bits % 16 == low && s2 < 64 && s3 < 64
    requires (low * 64 + s2) / 4 == chunk[1] && (|chunk| > 2 ==> s2 % 4 * 64 + s3 == chunk[2])
    requires |text| >= 2 && text == [Letter(s2)] + text[1..]
    requires text[1..] == if |chunk| == 2 then "=" else [Letter(s3)] + rest
    requires |chunk| == 2 ==> rest == ""
    ensures after < WORD
    ensures DecodeFrom(text, bits, 4) == Onto(chunk[1..], DecodeFrom(rest, after, 0))
  {
    hide Letter, DecodeFrom, Onto;
    var c := (bits * 64 + s2) % WORD;
    NextDecodes(s2, text[1..], bits, 4, low);
    if |chunk| == 2 {
      after := 0;
      PaddingDecodes(text[1..], c, 2);
      PaddingDecodes("", 0, 0);
      assert chunk[1..] == [chunk[1]];
    } else {
      after := (c * 64 + s3) % WORD;
      NextDecodes(s3, rest, c, 2, s2 % 4);
      OntoOnto([chunk[1]], [chunk[2]], DecodeFrom(rest, after, 0));
      assert chunk[1..] == [chunk[1]] + [chunk[2]];
    }
  }

  lemma {:induction false} EncodedDecodes(bytes: seq<byte>, at: nat, bits: nat)
    requires at <= |bytes| && bits < WORD
    ensures DecodeFrom(Encode(bytes, at), bits, 0) == Some(bytes[at..])
    decreases |bytes| - at
  {
    if at < |bytes| {
      var chunk := ChunkAt(bytes, at);
      var after := ChunkDecodes(chunk, Encode(bytes, at + |chunk|), bits);
      EncodedDecodes(bytes, at + |chunk|, after);
      hide DecodeFrom, EncodeChunk;
      assert bytes[at..] == chunk + bytes[at + |chunk|..];
    } else {
      assert bytes[at..] == [];
    }
  }

  lemma {:induction false} EncodedLength(bytes: seq<byte>, at: nat)
    requires at <= |bytes|
    ensures |Encode(bytes, at)| == 4 * ((|bytes| - at + 2) / 3)
    decreases |bytes| - at
  {
    hide EncodeChunk;
    if at < |bytes| {
      EncodedLength(bytes, at + |ChunkAt(bytes, at)|);
    }
  }

  /** Decoding undoes encoding, and the text is four characters to every three bytes. */
  lemma RoundTrip(bytes: seq<byte>)
    ensures Decode(Encode(bytes)) == Some(bytes) == Decode(EncodeWebhook(bytes))
    ensures |Encode(bytes)| == 4 * ((|bytes| + 2) / 3)
  {
    EncodedDecodes(bytes, 0, 0);
    EncodedLength(bytes, 0);
    EncodersAgree(bytes);
    assert bytes[0..] == bytes;
  }

  lemma {:induction false} DecodesWhen(text: string, bits: nat, held: nat)
    requires Held(held) && bits < WORD
    ensures DecodeFrom(text, bits, held).Some? <==> forall c :: c in text ==> !Meant(c).Refused?
  {
    if text != "" {
      assert forall c :: c in text <==> c == text[0] || c in text[1..];
      match Meant(text[0])
      case Refused =>
      case Skipped => DecodesWhen(text[1..], bits, held);
      case Bits(value) =>
        DecodesWhen(text[1..], (bits * 64 + value) % WORD, if held < 2 then held + 6 else held - 2);
    }
  }

  /** What the decoder refuses is a character that is neither of the alphabet, padding
      nor a line break, wherever it stands. */
  lemma Refuses(text: string)
    ensures Decode(text).None? <==> exists c :: c in text && Meant(c).Refused?
  {
    DecodesWhen(text, 0, 0);
  }
}
