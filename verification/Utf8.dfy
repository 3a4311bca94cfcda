/** The incremental UTF-8 decoder that the SSE client feeds with network chunks, one byte at a time.
    An ill-formed byte is reported as soon as no continuation could repair it. */
module Utf8 {

  type Byte = b: int | 0 <= b < 256

  /** `need` continuation bytes are missing; the next one must lie in `lo..hi`. */
  datatype Decoder = Idle | Pending(need: nat, acc: nat, lo: int, hi: int) {

    /** Every completion of the pending bits is a Unicode scalar value. */
    predicate Valid() {
      Pending? ==>
        && 1 <= need <= 3
        && 0x80 <= lo <= hi <= 0xBF
        && var unit := if need == 1 then 1 else if need == 2 then 64 else 4096;
           var least := (acc * 64 + (lo - 0x80)) * unit;
           var greatest := (acc * 64 + (hi - 0x7F)) * unit - 1;
           greatest < 0xD800 || (0xE000 <= least && greatest < 0x11_0000)
    }
  }

  type ValidDecoder = d: Decoder | d.Valid() witness Idle

  datatype Fed = Invalid | More(next: ValidDecoder) | Emit(c: char)

  function Feed(d: ValidDecoder, b: Byte): Fed {
    match d
    case Idle =>
      if b < 0x80 then Emit(b as char)
      else if 0xC2 <= b <= 0xDF then More(Pending(1, b - 0xC0, 0x80, 0xBF))
      else if 0xE0 <= b <= 0xEF then
        More(Pending(2, b - 0xE0, if b == 0xE0 then 0xA0 else 0x80, if b == 0xED then 0x9F else 0xBF))
      else if 0xF0 <= b <= 0xF4 then
        More(Pending(3, b - 0xF0, if b == 0xF0 then 0x90 else 0x80, if b == 0xF4 then 0x8F else 0xBF))
      else Invalid
    case Pending(need, acc, lo, hi) =>
      if !(lo <= b <= hi) then Invalid
      else if need == 1 then Emit((acc * 64 + (b - 0x80)) as char)
      else More(Pending(need - 1, acc * 64 + (b - 0x80), 0x80, 0xBF))
  }

  /** `Bad` keeps the text that preceded the ill-formed byte. */
  datatype Decoded = Good(text: string, state: ValidDecoder) | Bad(text: string) {
    function After(prefix: string): Decoded {
      this.(text := prefix + text)
    }
  }

  function Decode(d: ValidDecoder, bytes: seq<Byte>): Decoded
    decreases |bytes|
  {
    if bytes == [] then Good("", d)
    else
      match Feed(d, bytes[0])
      case Invalid => Bad("")
      case More(next) => Decode(next, bytes[1..])
      case Emit(c) => Decode(Idle, bytes[1..]).After([c])
  }

  function Encode(c: char): seq<Byte> {
    var n := c as int;
    if n < 0x80 then [n]
    else if n < 0x800 then [0xC0 + n / 64, 0x80 + n % 64]
    else if n < 0x1_0000 then [0xE0 + n / 4096, 0x80 + n / 64 % 64, 0x80 + n % 64]
    else [0xF0 + n / 262144, 0x80 + n / 4096 % 64, 0x80 + n / 64 % 64, 0x80 + n % 64]
  }

  function EncodeAll(text: string): seq<Byte> {
    if text == "" then [] else Encode(text[0]) + EncodeAll(text[1..])
  }

  /** Splitting the bytes anywhere, also inside a character, does not change the decoding. */
  lemma {:induction false} DecodeConcat(d: ValidDecoder, a: seq<Byte>, b: seq<Byte>)
    ensures Decode(d, a + b) ==
            match Decode(d, a)
            case Bad(text) => Bad(text)
            case Good(text, state) => Decode(state, b).After(text)
    decreases |a|
  {
    if a == [] {
      assert a + b == b;
      var r := Decode(d, b);
      assert "" + r.text == r.text;
    } else {
      assert (a + b)[1..] == a[1..] + b;
      match Feed(d, a[0])
      case Invalid =>
      case More(next) => DecodeConcat(next, a[1..], b);
      case Emit(c) =>
        DecodeConcat(Idle, a[1..], b);
        match Decode(Idle, a[1..])
        case Bad(text) =>
        case Good(text, state) =>
          assert [c] + (text + Decode(state, b).text) == ([c] + text) + Decode(state, b).text;
    }
  }

  /** The last continuation byte completes the character. */
  lemma DecodeLast(c: char, lo: int)
    requires Pending(1, c as int / 64, lo, 0xBF).Valid() && lo <= 0x80 + c as int % 64
    ensures Decode(Pending(1, c as int / 64, lo, 0xBF), [0x80 + c as int % 64]) == Good([c], Idle)
  {
    var n := c as int;
    var last: seq<Byte> := [0x80 + n % 64];
    assert n / 64 * 64 + n % 64 == n;
    assert last[1..] == [];
    assert Decode(Idle, []).After([c]) == Good([c], Idle);
  }

  /** The last two continuation bytes do, within the bounds that exclude overlong forms and surrogates. */
  lemma DecodeLastTwo(c: char, lo: int, hi: int)
    requires Pending(2, c as int / 4096, lo, hi).Valid() && lo <= 0x80 + c as int / 64 % 64 <= hi
    ensures Decode(Pending(2, c as int / 4096, lo, hi), [0x80 + c as int / 64 % 64, 0x80 + c as int % 64])
         == Good([c], Idle)
  {
    var n := c as int;
    var tail: seq<Byte> := [0x80 + n / 64 % 64, 0x80 + n % 64];
    assert n / 4096 * 64 + n / 64 % 64 == n / 64;
    assert tail[1..] == [0x80 + n % 64];
    DecodeLast(c, 0x80);
  }

  lemma DecodeThree(c: char)
    requires 0x800 <= c as int < 0x1_0000
    ensures Decode(Idle, Encode(c)) == Good([c], Idle)
  {
    var n := c as int;
    assert Encode(c)[1..] == [0x80 + n / 64 % 64, 0x80 + n % 64];
    var lo, hi := if n / 4096 == 0 then 0xA0 else 0x80, if n / 4096 == 13 then 0x9F else 0xBF;
    assert Feed(Idle, Encode(c)[0]) == More(Pending(2, n / 4096, lo, hi));
    assert lo <= 0x80 + n / 64 % 64 <= hi;
    DecodeLastTwo(c, lo, hi);
  }

  lemma DecodeFour(c: char)
    requires 0x1_0000 <= c as int
    ensures Decode(Idle, Encode(c)) == Good([c], Idle)
  {
    var n := c as int;
    var tail: seq<Byte> := [0x80 + n / 4096 % 64, 0x80 + n / 64 % 64, 0x80 + n % 64];
    assert Encode(c)[1..] == tail;
    assert tail[1..] == [0x80 + n / 64 % 64, 0x80 + n % 64];
    var lo, hi := if n / 262144 == 0 then 0x90 else 0x80, if n / 262144 == 4 then 0x8F else 0xBF;
    assert Feed(Idle, Encode(c)[0]) == More(Pending(3, n / 262144, lo, hi));
    assert n / 262144 * 64 + n / 4096 % 64 == n / 4096;
    assert Feed(Pending(3, n / 262144, lo, hi), tail[0]) == More(Pending(2, n / 4096, 0x80, 0xBF));
    DecodeLastTwo(c, 0x80, 0xBF);
  }

  lemma DecodeOne(c: char)
    ensures Decode(Idle, Encode(c)) == Good([c], Idle)
  {
    var n := c as int;
    if n < 0x80 {
      assert Encode(c)[1..] == [];
      assert Decode(Idle, []).After([c]) == Good([c], Idle);
    } else if n < 0x800 {
      assert Encode(c)[1..] == [0x80 + n % 64];
      DecodeLast(c, 0x80);
    } else if n < 0x1_0000 {
      DecodeThree(c);
    } else {
      DecodeFour(c);
    }
  }

  /** Decoding undoes encoding for every text. */
  lemma {:induction false} DecodeEncodeAll(text: string)
    ensures Decode(Idle, EncodeAll(text)) == Good(text, Idle)
  {
    if text != "" {
      DecodeOne(text[0]);
      DecodeEncodeAll(text[1..]);
      DecodeConcat(Idle, Encode(text[0]), EncodeAll(text[1..]));
      assert [text[0]] + text[1..] == text;
    }
  }

  // ---- What decodes is an encoding

  lemma EncodeTwoBack(a: Byte, b: Byte)
    requires 0xC2 <= a <= 0xDF && 0x80 <= b <= 0xBF
    ensures Encode(((a - 0xC0) * 64 + (b - 0x80)) as char) == [a, b]
  {
  }

  lemma EncodeThreeBack(a: Byte, b: Byte, c: Byte)
    requires 0xE0 <= a <= 0xEF && 0x80 <= b <= 0xBF && 0x80 <= c <= 0xBF
    requires (a == 0xE0 ==> b >= 0xA0) && (a == 0xED ==> b <= 0x9F)
    ensures var n := ((a - 0xE0) * 64 + (b - 0x80)) * 64 + (c - 0x80);
            (n < 0xD800 || 0xE000 <= n < 0x11_0000) && Encode(n as char) == [a, b, c]
  {
  }

  lemma Digits(x: int, y: int, z: int, w: int)
    requires 0 <= x && 0 <= y < 64 && 0 <= z < 64 && 0 <= w < 64
    ensures var n := ((x * 64 + y) * 64 + z) * 64 + w;
            n / 262144 == x && n / 4096 % 64 == y && n / 64 % 64 == z && n % 64 == w
  {
    var n := ((x * 64 + y) * 64 + z) * 64 + w;
    assert n / 64 == (x * 64 + y) * 64 + z;
    assert n / 4096 == x * 64 + y;
    assert n / 262144 == x;
  }

  lemma EncodeFourBack(a: Byte, b: Byte, c: Byte, d: Byte)
    requires 0xF0 <= a <= 0xF4 && 0x80 <= b <= 0xBF && 0x80 <= c <= 0xBF && 0x80 <= d <= 0xBF
    requires (a == 0xF0 ==> b >= 0x90) && (a == 0xF4 ==> b <= 0x8F)
    ensures var n := (((a - 0xF0) * 64 + (b - 0x80)) * 64 + (c - 0x80)) * 64 + (d - 0x80);
            0x1_0000 <= n < 0x11_0000 && Encode(n as char) == [a, b, c, d]
  {
    Digits(a - 0xF0, b - 0x80, c - 0x80, d - 0x80);
  }

  ghost predicate Clean(d: ValidDecoder, bytes: seq<Byte>) {
    Decode(d, bytes).Good? && Decode(d, bytes).state == Idle
  }

  /** The bits so far and six more. */
  function Push(acc: int, b: int): int {
    acc * 64 + (b - 0x80)
  }

  /** The stream starts with these bytes, which make up `c`. */
  ghost predicate StartsWith(d: ValidDecoder, bytes: seq<Byte>, k: nat, c: char) {
    k <= |bytes| && Clean(Idle, bytes[k..]) && Decode(d, bytes) == Decode(Idle, bytes[k..]).After([c])
  }

  lemma LastByte(d: ValidDecoder, bytes: seq<Byte>) returns (c: char)
    requires d.Pending? && d.need == 1 && Clean(d, bytes)
    ensures bytes != [] && d.lo <= bytes[0] <= d.hi && StartsWith(d, bytes, 1, c) && c as int == Push(d.acc, bytes[0])
  {
    c := Push(d.acc, bytes[0]) as char;
  }

  /** A character that is not finished needs another byte, and the byte must fit. */
  lemma NextByte(d: ValidDecoder, bytes: seq<Byte>) returns (next: ValidDecoder)
    requires d.Pending? && d.need > 1 && Clean(d, bytes)
    ensures bytes != [] && d.lo <= bytes[0] <= d.hi
    ensures next == Pending(d.need - 1, Push(d.acc, bytes[0]), 0x80, 0xBF)
    ensures Clean(next, bytes[1..]) && Decode(d, bytes) == Decode(next, bytes[1..])
  {
    next := Pending(d.need - 1, d.acc * 64 + (bytes[0] - 0x80), 0x80, 0xBF);
  }

  lemma LastTwoBytes(d: ValidDecoder, bytes: seq<Byte>) returns (c: char)
    requires d.Pending? && d.need == 2 && Clean(d, bytes)
    ensures |bytes| >= 2 && d.lo <= bytes[0] <= d.hi && 0x80 <= bytes[1] <= 0xBF
    ensures StartsWith(d, bytes, 2, c) && c as int == Push(Push(d.acc, bytes[0]), bytes[1])
  {
    var next := NextByte(d, bytes);
    c := LastByte(next, bytes[1..]);
    assert bytes[1..][1..] == bytes[2..];
  }

  lemma LastThreeBytes(d: ValidDecoder, bytes: seq<Byte>) returns (c: char)
    requires d.Pending? && d.need == 3 && Clean(d, bytes)
    ensures |bytes| >= 3 && d.lo <= bytes[0] <= d.hi && 0x80 <= bytes[1] <= 0xBF && 0x80 <= bytes[2] <= 0xBF
    ensures StartsWith(d, bytes, 3, c) && c as int == Push(Push(Push(d.acc, bytes[0]), bytes[1]), bytes[2])
  {
    var next := NextByte(d, bytes);
    c := LastTwoBytes(next, bytes[1..]);
    assert bytes[1..][2..] == bytes[3..];
  }

  /** The first character of a stream that decodes, and its bytes. */
  lemma FirstCharacter(bytes: seq<Byte>) returns (k: nat, c: char)
    requires bytes != [] && Clean(Idle, bytes)
    ensures 1 <= k <= |bytes| && StartsWith(Idle, bytes, k, c) && Encode(c) == bytes[..k]
  {
    var a, rest := bytes[0], bytes[1..];
    assert a >= 0x80 ==> Feed(Idle, a).More? && Decode(Idle, bytes) == Decode(Feed(Idle, a).next, rest);
    if a < 0x80 {
      k, c := 1, a as char;
    } else if a <= 0xDF {
      k := 2;
      c := LastByte(Feed(Idle, a).next, rest);
      EncodeTwoBack(a, rest[0]);
      assert rest[1..] == bytes[2..] && bytes[..2] == [a, rest[0]];
    } else if a <= 0xEF {
      k := 3;
      c := LastTwoBytes(Feed(Idle, a).next, rest);
      EncodeThreeBack(a, rest[0], rest[1]);
      assert rest[2..] == bytes[3..] && bytes[..3] == [a, rest[0], rest[1]];
    } else {
      k := 4;
      c := LastThreeBytes(Feed(Idle, a).next, rest);
      EncodeFourBack(a, rest[0], rest[1], rest[2]);
      assert rest[3..] == bytes[4..] && bytes[..4] == [a, rest[0], rest[1], rest[2]];
    }
  }

  /** Bytes decode without a remainder if and only if they are the encoding of the text they decode to. */
  lemma {:induction false} DecodesIffEncoded(bytes: seq<Byte>, text: string)
    ensures Decode(Idle, bytes) == Good(text, Idle) <==> bytes == EncodeAll(text)
    decreases |bytes|
  {
    DecodeEncodeAll(text);
    if bytes != [] && Decode(Idle, bytes) == Good(text, Idle) {
      var k, c := FirstCharacter(bytes);
      var rest := Decode(Idle, bytes[k..]).text;
      DecodesIffEncoded(bytes[k..], rest);
      assert text == [c] + rest && text[1..] == rest;
      assert bytes == bytes[..k] + bytes[k..];
    }
  }
}
