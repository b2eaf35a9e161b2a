/**
 b64enc and b64dec: the URL-safe base64 of section 5 of RFC 4648 with the padding removed and
 restored.  Decoding follows the automaton of binascii.a2b_base64 in its lenient mode:
 characters outside the alphabet are skipped and a completed padding ends the input.
 */
module Base64Url {
  newtype Byte = x: int | 0 <= x < 256
  type Bytes = seq<Byte>
  type Sextet = x: int | 0 <= x < 64

  datatype Decoded = Data(data: Bytes) | Failure

  // ── Alphabet ───────────────────────────────────────────────────────────

  function Symbol(v: Sextet): char {
    if v < 26 then 'A' + v as char
    else if v < 52 then 'a' + (v - 26) as char
    else if v < 62 then '0' + (v - 52) as char
    else if v == 62 then '-' else '_'
  }

  /** The standard alphabet; the URL-safe one is translated to it, so both are understood. */
  function Value(ch: char): (v: int)
    ensures -1 <= v < 64
  {
    if 'A' <= ch <= 'Z' then ch as int - 'A' as int
    else if 'a' <= ch <= 'z' then ch as int - 'a' as int + 26
    else if '0' <= ch <= '9' then ch as int - '0' as int + 52
    else if ch == '+' || ch == '-' then 62
    else if ch == '/' || ch == '_' then 63
    else -1
  }

  lemma SymbolValue(v: Sextet)
    ensures Value(Symbol(v)) == v && Symbol(v) != '=' && Symbol(v) as int < 128
  {
  }

  // ── Encoding ───────────────────────────────────────────────────────────

  function First(a: Byte): Sextet { a as int / 4 }
  function Second(a: Byte, b: Byte): Sextet { a as int % 4 * 16 + b as int / 16 }
  function Third(b: Byte, c: Byte): Sextet { b as int % 16 * 4 + c as int / 64 }
  function Fourth(c: Byte): Sextet { c as int % 64 }

  /** urlsafe_b64encode. */
  function Encode(data: Bytes): string {
    if |data| == 0 then ""
    else if |data| == 1 then [Symbol(First(data[0])), Symbol(Second(data[0], 0)), '=', '=']
    else if |data| == 2 then
      [Symbol(First(data[0])), Symbol(Second(data[0], data[1])), Symbol(Third(data[1], 0)), '=']
    else Quad(data[0], data[1], data[2]) + Encode(data[3..])
  }

  function Quad(a: Byte, b: Byte, c: Byte): string {
    [Symbol(First(a)), Symbol(Second(a, b)), Symbol(Third(b, c)), Symbol(Fourth(c))]
  }

  function RStrip(s: string): string {
    if s != "" && s[|s| - 1] == '=' then RStrip(s[..|s| - 1]) else s
  }

  function B64Enc(data: Bytes): string {
    RStrip(Encode(data))
  }

  // ── Decoding ───────────────────────────────────────────────────────────

  /** `quad` characters of a group are read, `left` holds the bits not yet written. */
  function Scan(s: string, quad: nat, left: nat, pads: nat, out: Bytes): Decoded
    requires quad < 4 && (quad == 1 ==> left < 64) && (quad == 2 ==> left < 16) && (quad == 3 ==> left < 4)
  {
    if s == "" then (if quad == 0 then Data(out) else Failure)
    else if s[0] == '=' then
      if quad >= 2 && quad + pads + 1 >= 4 then Data(out)
      else Scan(s[1..], quad, left, if quad >= 2 then pads + 1 else pads, out)
    else
      var v := Value(s[0]);
      if v < 0 then Scan(s[1..], quad, left, pads, out)
      else match quad
        case 0 => Scan(s[1..], 1, v, 0, out)
        case 1 => Scan(s[1..], 2, v % 16, 0, out + [(left * 4 + v / 16) as Byte])
        case 2 => Scan(s[1..], 3, v % 4, 0, out + [(left * 16 + v / 4) as Byte])
        case 3 => Scan(s[1..], 0, 0, 0, out + [(left * 64 + v) as Byte])
  }

  /** urlsafe_b64decode: text that is not ASCII is refused. */
  function Decode(s: string): Decoded {
    if exists i :: 0 <= i < |s| && s[i] as int >= 128 then Failure else Scan(s, 0, 0, 0, [])
  }

  function Padding(n: nat): string
    ensures |Padding(n)| == n
  {
    if n == 0 then "" else Padding(n - 1) + "="
  }

  function B64Dec(s: string): Decoded {
    Decode(s + Padding((-|s|) % 4))
  }

  // ── Round trip ─────────────────────────────────────────────────────────

  /** One symbol moves the automaton on. */
  lemma ScanSymbol(v: Sextet, rest: string, quad: nat, left: nat, pads: nat, out: Bytes)
    requires quad < 4 && (quad == 1 ==> left < 64) && (quad == 2 ==> left < 16) && (quad == 3 ==> left < 4)
    ensures Scan([Symbol(v)] + rest, quad, left, pads, out) ==
      match quad
      case 0 => Scan(rest, 1, v, 0, out)
      case 1 => Scan(rest, 2, v % 16, 0, out + [(left * 4 + v / 16) as Byte])
      case 2 => Scan(rest, 3, v % 4, 0, out + [(left * 16 + v / 4) as Byte])
      case 3 => Scan(rest, 0, 0, 0, out + [(left * 64 + v) as Byte])
  {
    SymbolValue(v);
    var s := [Symbol(v)] + rest;
    assert s[0] == Symbol(v) && s[1..] == rest;
  }

  /** The first two symbols of a group give back the first byte. */
  lemma ScanFirst(a: Byte, b: Byte, rest: string, out: Bytes)
    ensures Scan([Symbol(First(a))] + ([Symbol(Second(a, b))] + rest), 0, 0, 0, out)
         == Scan(rest, 2, b as int / 16, 0, out + [a])
  {
    ScanSymbol(First(a), [Symbol(Second(a, b))] + rest, 0, 0, 0, out);
    ScanSymbol(Second(a, b), rest, 1, First(a), 0, out);
    assert First(a) * 4 + Second(a, b) / 16 == a as int;
  }

  lemma ScanSecond(b: Byte, c: Byte, rest: string, out: Bytes)
    ensures Scan([Symbol(Third(b, c))] + rest, 2, b as int / 16, 0, out) == Scan(rest, 3, c as int / 64, 0, out + [b])
  {
    ScanSymbol(Third(b, c), rest, 2, b as int / 16, 0, out);
    assert b as int / 16 * 16 + Third(b, c) / 4 == b as int;
  }

  lemma ScanThird(c: Byte, rest: string, out: Bytes)
    ensures Scan([Symbol(Fourth(c))] + rest, 3, c as int / 64, 0, out) == Scan(rest, 0, 0, 0, out + [c])
  {
    ScanSymbol(Fourth(c), rest, 3, c as int / 64, 0, out);
  }

  /** A group of four symbols gives back its three bytes. */
  lemma ScanQuad(a: Byte, b: Byte, c: Byte, rest: string, out: Bytes)
    ensures Scan(Quad(a, b, c) + rest, 0, 0, 0, out) == Scan(rest, 0, 0, 0, out + [a, b, c])
  {
    var r3 := [Symbol(Fourth(c))] + rest;
    var r2 := [Symbol(Third(b, c))] + r3;
    assert Quad(a, b, c) + rest == [Symbol(First(a))] + ([Symbol(Second(a, b))] + r2);
    ScanFirst(a, b, r2, out);
    ScanSecond(b, c, r3, out + [a]);
    ScanThird(c, rest, out + [a] + [b]);
    assert out + [a] + [b] + [c] == out + [a, b, c];
  }

  lemma ScanOne(a: Byte, out: Bytes)
    ensures Scan(Encode([a]), 0, 0, 0, out) == Data(out + [a])
  {
    assert Encode([a]) == [Symbol(First(a))] + ([Symbol(Second(a, 0))] + "==");
    ScanFirst(a, 0, "==", out);
    assert "=="[1..] == "=";
    assert Scan("==", 2, 0, 0, out + [a]) == Scan("=", 2, 0, 1, out + [a]);
  }

  lemma ScanTwo(a: Byte, b: Byte, out: Bytes)
    ensures Scan(Encode([a, b]), 0, 0, 0, out) == Data(out + [a, b])
  {
    var r2 := [Symbol(Third(b, 0))] + "=";
    assert Encode([a, b]) == [Symbol(First(a))] + ([Symbol(Second(a, b))] + r2);
    ScanFirst(a, b, r2, out);
    ScanSecond(b, 0, "=", out + [a]);
    assert out + [a] + [b] == out + [a, b];
  }

  lemma ScanShort(data: Bytes, out: Bytes)
    requires |data| < 3
    ensures Scan(Encode(data), 0, 0, 0, out) == Data(out + data)
  {
    if |data| == 0 {
      assert out + data == out;
    } else if |data| == 1 {
      assert data == [data[0]];
      ScanOne(data[0], out);
    } else {
      assert data == [data[0], data[1]];
      ScanTwo(data[0], data[1], out);
    }
  }

  lemma SplitGroup(data: Bytes)
    requires |data| >= 3
    ensures data == [data[0], data[1], data[2]] + data[3..]
  {
  }

  lemma Regroup(out: Bytes, group: Bytes, rest: Bytes)
    ensures (out + group) + rest == out + (group + rest)
  {
  }

  lemma {:induction false} ScanEncode(data: Bytes, out: Bytes)
    ensures Scan(Encode(data), 0, 0, 0, out) == Data(out + data)
  {
    if |data| < 3 {
      ScanShort(data, out);
    } else {
      var (group, rest) := ([data[0], data[1], data[2]], data[3..]);
      ScanQuad(data[0], data[1], data[2], Encode(rest), out);
      ScanEncode(rest, out + group);
      SplitGroup(data);
      Regroup(out, group, rest);
    }
  }

  lemma {:induction false} EncodeIsAscii(data: Bytes)
    ensures forall i :: 0 <= i < |Encode(data)| ==> Encode(data)[i] as int < 128
  {
    if |data| == 1 {
      SymbolValue(First(data[0]));
      SymbolValue(Second(data[0], 0));
    } else if |data| == 2 {
      SymbolValue(First(data[0]));
      SymbolValue(Second(data[0], data[1]));
      SymbolValue(Third(data[1], 0));
    } else if |data| > 2 {
      SymbolValue(First(data[0]));
      SymbolValue(Second(data[0], data[1]));
      SymbolValue(Third(data[1], data[2]));
      SymbolValue(Fourth(data[2]));
      EncodeIsAscii(data[3..]);
    }
  }

  /** RFC 4648: what is encoded decodes to itself, padding and all. */
  lemma DecodeEncode(data: Bytes)
    ensures Decode(Encode(data)) == Data(data)
  {
    EncodeIsAscii(data);
    ScanEncode(data, []);
    assert [] + data == data;
  }

  // ── Padding removed and restored ───────────────────────────────────────

  /** The symbols without padding. */
  function Body(data: Bytes): string {
    if |data| == 0 then ""
    else if |data| == 1 then [Symbol(First(data[0])), Symbol(Second(data[0], 0))]
    else if |data| == 2 then [Symbol(First(data[0])), Symbol(Second(data[0], data[1])), Symbol(Third(data[1], 0))]
    else Quad(data[0], data[1], data[2]) + Body(data[3..])
  }

  lemma {:induction false} BodyShape(data: Bytes)
    ensures Body(data) != "" ==> Body(data)[|Body(data)| - 1] != '='
  {
    if |data| == 1 {
      SymbolValue(Second(data[0], 0));
    } else if |data| == 2 {
      SymbolValue(Third(data[1], 0));
    } else if |data| > 2 {
      SymbolValue(Fourth(data[2]));
      BodyShape(data[3..]);
      var (quad, rest) := (Quad(data[0], data[1], data[2]), Body(data[3..]));
      assert rest == "" ==> (quad + rest)[3] == quad[3];
    }
  }

  lemma PadOfGroup(n: int)
    ensures (-(n + 4)) % 4 == (-n) % 4
  {
  }

  lemma Associates(a: string, b: string, c: string)
    ensures a + (b + c) == (a + b) + c
  {
  }

  lemma {:induction false} EncodeIsPaddedBody(data: Bytes)
    ensures Encode(data) == Body(data) + Padding((-|Body(data)|) % 4)
  {
    if |data| == 1 {
      assert Padding(2) == Padding(1) + "=" && Padding(1) == Padding(0) + "=";
    } else if |data| == 2 {
      assert Padding(1) == Padding(0) + "=";
    } else if |data| > 2 {
      EncodeIsPaddedBody(data[3..]);
      PaddedGroup(Quad(data[0], data[1], data[2]), Body(data[3..]));
    }
  }

  lemma PaddedGroup(quad: string, rest: string)
    requires |quad| == 4
    ensures quad + (rest + Padding((-|rest|) % 4)) == (quad + rest) + Padding((-|quad + rest|) % 4)
  {
    SamePad(quad, rest);
    Associates(quad, rest, Padding((-|rest|) % 4));
  }

  lemma SamePad(quad: string, rest: string)
    requires |quad| == 4
    ensures (-|quad + rest|) % 4 == (-|rest|) % 4
  {
    PadOfGroup(|rest|);
  }

  lemma {:induction false} RStripPadding(s: string, n: nat)
    requires s != "" ==> s[|s| - 1] != '='
    ensures RStrip(s + Padding(n)) == s
  {
    if n == 0 {
      assert s + Padding(0) == s;
    } else {
      RStripPadding(s, n - 1);
      assert (s + Padding(n))[..|s| + n - 1] == s + Padding(n - 1);
    }
  }

  /** Stripping removes exactly what b64dec puts back. */
  lemma PaddingRestored(data: Bytes)
    ensures B64Enc(data) + Padding((-|B64Enc(data)|) % 4) == Encode(data)
  {
    EncodeIsPaddedBody(data);
    BodyShape(data);
    RStripPadding(Body(data), (-|Body(data)|) % 4);
  }

  lemma RoundTrip(data: Bytes)
    ensures B64Dec(B64Enc(data)) == Data(data)
  {
    PaddingRestored(data);
    DecodeEncode(data);
  }

  /** So distinct byte strings have distinct texts. */
  lemma EncodingIsInjective(x: Bytes, y: Bytes)
    requires B64Enc(x) == B64Enc(y)
    ensures x == y
  {
    RoundTrip(x);
    RoundTrip(y);
  }

  // ── What the texts spell ───────────────────────────────────────────────

  const UPPER: string := "ABCDEFGHIJKLMNOPQRSTUVWXYZ"
  const LOWER: string := "abcdefghijklmnopqrstuvwxyz"
  const DIGITS: string := "0123456789-_"

  /** Table 2 of RFC 4648. */
  const ALPHABET: string := UPPER + LOWER + DIGITS

  lemma UpperListed(v: Sextet)
    requires v < 26
    ensures |UPPER| == 26 && Symbol(v) == UPPER[v]
  {
  }

  lemma LowerListed(v: Sextet)
    requires 26 <= v < 52
    ensures |LOWER| == 26 && Symbol(v) == LOWER[v - 26]
  {
  }

  lemma DigitListed(v: Sextet)
    requires 52 <= v
    ensures |DIGITS| == 12 && Symbol(v) == DIGITS[v - 52]
  {
  }

  lemma SymbolIsListed(v: Sextet)
    ensures |ALPHABET| == 64 && Symbol(v) == ALPHABET[v]
  {
    if v < 26 {
      UpperListed(v);
    } else if v < 52 {
      LowerListed(v);
    } else {
      DigitListed(v);
    }
  }

  function ByteAt(data: Bytes, k: nat): (r: nat)
    ensures r < 256
  {
    if k < |data| then data[k] as int else 0
  }

  /** Six bits of the data from bit 6i on, the first bit of a byte being its highest; zeros follow the end. */
  function BitsAt(data: Bytes, i: nat): Sextet {
    Window(ByteAt(data, 6 * i / 8) * 256 + ByteAt(data, 6 * i / 8 + 1), 6 * i % 8)
  }

  /** Six of sixteen bits, from an even offset on. */
  function Window(pair: nat, offset: nat): Sextet {
    match offset
    case 0 => pair / 1024 % 64
    case 2 => pair / 256 % 64
    case 4 => pair / 64 % 64
    case _ => pair / 16 % 64
  }

  /** The two bytes that a sextet comes from, for the four positions in a group. */
  lemma PairBits(a: Byte, b: Byte)
    ensures var pair := a as int * 256 + b as int;
      && Window(pair, 0) == First(a) && Window(pair, 6) == Second(a, b)
      && Window(pair, 4) == Third(a, b) && Window(pair, 2) == Fourth(a)
  {
    FirstBits(a as int, b as int);
    SecondBits(a as int, b as int);
    ThirdBits(a as int, b as int);
  }

  lemma FirstBits(a: int, b: int)
    requires 0 <= a < 256 && 0 <= b < 256
    ensures (a * 256 + b) / 1024 % 64 == a / 4 && (a * 256 + b) / 256 % 64 == a % 64
  {
    assert (a * 256 + b) / 256 == a;
    assert (a * 256 + b) / 1024 == a / 4;
  }

  lemma SecondBits(a: int, b: int)
    requires 0 <= a < 256 && 0 <= b < 256
    ensures (a * 256 + b) / 16 % 64 == a % 4 * 16 + b / 16
  {
    assert (a * 256 + b) / 16 == a * 16 + b / 16;
    assert a * 16 + b / 16 == a / 4 * 64 + (a % 4 * 16 + b / 16);
  }

  lemma ThirdBits(a: int, b: int)
    requires 0 <= a < 256 && 0 <= b < 256
    ensures (a * 256 + b) / 64 % 64 == a % 16 * 4 + b / 64
  {
    assert (a * 256 + b) / 64 == a * 4 + b / 64;
    assert a * 4 + b / 64 == a / 16 * 64 + (a % 16 * 4 + b / 64);
  }

  /** One group, or what is left at the end. */
  lemma GroupSpells(data: Bytes, i: nat)
    requires i < 4 && 6 * i < 8 * |data|
    ensures i < |Body(data)| && Body(data)[i] == Symbol(BitsAt(data, i))
  {
    BodyStart(data, i);
    StartBits(data, i);
  }

  lemma StartBits(data: Bytes, i: nat)
    requires i < 4
    ensures BitsAt(data, i) ==
      var (a, b) := (ByteAt(data, 6 * i / 8) as Byte, ByteAt(data, 6 * i / 8 + 1) as Byte);
      match i case 0 => First(a) case 1 => Second(a, b) case 2 => Third(a, b) case _ => Fourth(a)
  {
    var (a, b) := (ByteAt(data, 6 * i / 8) as Byte, ByteAt(data, 6 * i / 8 + 1) as Byte);
    PairBits(a, b);
    assert BitsAt(data, i) == Window(a as int * 256 + b as int, 6 * i % 8);
  }

  lemma BodyStart(data: Bytes, i: nat)
    requires i < 4 && 6 * i < 8 * |data|
    ensures i < |Body(data)| && Body(data)[i] ==
      var (a, b) := (ByteAt(data, 6 * i / 8) as Byte, ByteAt(data, 6 * i / 8 + 1) as Byte);
      Symbol(match i case 0 => First(a) case 1 => Second(a, b) case 2 => Third(a, b) case _ => Fourth(a))
  {
    match i
    case 0 =>
    case 1 =>
    case 2 =>
    case 3 =>
  }

  lemma BitsShift(data: Bytes, i: nat)
    requires |data| >= 3 && i >= 4
    ensures BitsAt(data, i) == BitsAt(data[3..], i - 4)
  {
    assert 6 * i / 8 == 6 * (i - 4) / 8 + 3 && 6 * i % 8 == 6 * (i - 4) % 8;
    forall k: nat ensures ByteAt(data[3..], k) == ByteAt(data, k + 3) {}
  }

  lemma {:induction false} BodySpells(data: Bytes, i: nat)
    requires 6 * i < 8 * |data|
    ensures i < |Body(data)| && Body(data)[i] == Symbol(BitsAt(data, i))
    decreases data
  {
    if i < 4 {
      GroupSpells(data, i);
    } else {
      BodySpells(data[3..], i - 4);
      BitsShift(data, i);
    }
  }

  /** Section 4 of RFC 4648: the text is the data read six bits at a time, by the URL-safe alphabet. */
  lemma TextSpellsTheBits(data: Bytes, i: nat)
    requires 6 * i < 8 * |data|
    ensures i < |B64Enc(data)| && B64Enc(data)[i] == ALPHABET[BitsAt(data, i)]
  {
    EncodeIsPaddedBody(data);
    BodyShape(data);
    RStripPadding(Body(data), (-|Body(data)|) % 4);
    BodySpells(data, i);
    SymbolIsListed(BitsAt(data, i));
  }

  // ── The alphabet of the texts, and lenient decoding ────────────────────

  /** A letter, a digit, '-' or '_': the alphabet of section 5 of RFC 4648. */
  predicate UrlSafe(ch: char) {
    'A' <= ch <= 'Z' || 'a' <= ch <= 'z' || '0' <= ch <= '9' || ch == '-' || ch == '_'
  }

  lemma {:induction false} BodyIsUrlSafe(data: Bytes)
    ensures forall i :: 0 <= i < |Body(data)| ==> UrlSafe(Body(data)[i])
  {
    if |data| > 2 {
      BodyIsUrlSafe(data[3..]);
    }
  }

  /** No padding, no '+', no '/'; and one symbol per six bits, rounded up. */
  lemma TextIsUrlSafe(data: Bytes)
    ensures forall i :: 0 <= i < |B64Enc(data)| ==> UrlSafe(B64Enc(data)[i])
    ensures |B64Enc(data)| == (8 * |data| + 5) / 6
  {
    EncodeIsPaddedBody(data);
    BodyShape(data);
    RStripPadding(Body(data), (-|Body(data)|) % 4);
    BodyIsUrlSafe(data);
    BodyLength(data);
  }

  lemma {:induction false} BodyLength(data: Bytes)
    ensures |Body(data)| == (8 * |data| + 5) / 6
  {
    if |data| > 2 {
      BodyLength(data[3..]);
    }
  }

  predicate Scannable(quad: nat, left: nat) {
    quad < 4 && (quad == 1 ==> left < 64) && (quad == 2 ==> left < 16) && (quad == 3 ==> left < 4)
  }

  /** A character of neither alphabet, other than '=', changes nothing wherever it stands. */
  lemma {:induction false} ForeignIsSkipped(a: string, ch: char, b: string, quad: nat, left: nat, pads: nat, out: Bytes)
    requires Scannable(quad, left) && Value(ch) < 0 && ch != '='
    ensures Scan(a + [ch] + b, quad, left, pads, out) == Scan(a + b, quad, left, pads, out)
    decreases a
  {
    if a == "" {
      assert (a + [ch] + b)[1..] == b && a + b == b;
    } else {
      var rest := a[1..];
      assert (a + [ch] + b)[1..] == rest + [ch] + b && (a + b)[1..] == rest + b;
      var v := Value(a[0]);
      if a[0] == '=' {
        ForeignIsSkipped(rest, ch, b, quad, left, if quad >= 2 then pads + 1 else pads, out);
      } else if v < 0 {
        ForeignIsSkipped(rest, ch, b, quad, left, pads, out);
      } else {
        match quad
        case 0 => ForeignIsSkipped(rest, ch, b, 1, v, 0, out);
        case 1 => ForeignIsSkipped(rest, ch, b, 2, v % 16, 0, out + [(left * 4 + v / 16) as Byte]);
        case 2 => ForeignIsSkipped(rest, ch, b, 3, v % 4, 0, out + [(left * 16 + v / 4) as Byte]);
        case 3 => ForeignIsSkipped(rest, ch, b, 0, 0, 0, out + [(left * 64 + v) as Byte]);
      }
    }
  }

  lemma SymbolAdvances(s: string, rest: string, quad: nat, left: nat, pads: nat, out: Bytes)
    returns (quad': nat, left': nat, out': Bytes)
    requires Scannable(quad, left) && s != "" && Value(s[0]) >= 0
    ensures Scannable(quad', left') && quad' == (quad + 1) % 4
    ensures Scan(s + rest, quad, left, pads, out) == Scan(s[1..] + rest, quad', left', 0, out')
  {
    var v := Value(s[0]);
    assert s[0] != '=' && (s + rest)[1..] == s[1..] + rest;
    match quad {
      case 0 => quad', left', out' := 1, v, out;
      case 1 => quad', left', out' := 2, v % 16, out + [(left * 4 + v / 16) as Byte];
      case 2 => quad', left', out' := 3, v % 4, out + [(left * 16 + v / 4) as Byte];
      case 3 => quad', left', out' := 0, 0, out + [(left * 64 + v) as Byte];
    }
  }

  /** Where the automaton stands after some symbols: only the length counts. */
  lemma {:induction false} SymbolsAdvance(s: string, rest: string, quad: nat, left: nat, pads: nat, out: Bytes)
    returns (quad': nat, left': nat, out': Bytes)
    requires Scannable(quad, left) && s != "" && forall i :: 0 <= i < |s| ==> Value(s[i]) >= 0
    ensures Scannable(quad', left') && quad' == (quad + |s|) % 4
    ensures Scan(s + rest, quad, left, pads, out) == Scan(rest, quad', left', 0, out')
    decreases s
  {
    quad', left', out' := SymbolAdvances(s, rest, quad, left, pads, out);
    var tail := s[1..];
    if tail != "" {
      assert forall i :: 0 <= i < |tail| ==> tail[i] == s[i + 1];
      quad', left', out' := SymbolsAdvance(tail, rest, quad', left', 0, out');
      assert (quad + 1) % 4 + |tail| == quad + |s| || (quad + 1) % 4 + |tail| == quad + |s| - 4;
    } else {
      assert s[1..] + rest == rest;
    }
  }

  /** What the restored padding does at each position of a group. */
  lemma PaddingEnds(quad: nat, left: nat, out: Bytes)
    requires Scannable(quad, left)
    ensures Scan(Padding((4 - quad) % 4), quad, left, 0, out).Failure? <==> quad == 1
  {
    assert Padding(0) == "" && Padding(1) == "=" && Padding(2) == "==" && Padding(3) == "===";
    match quad {
      case 0 =>
      case 1 => OneSymbolFails(left, out);
      case 2 => assert "=="[1..] == "=" && "="[1..] == "";
      case 3 => assert "="[1..] == "";
    }
  }

  lemma OneSymbolFails(left: nat, out: Bytes)
    requires Scannable(1, left)
    ensures Scan("===", 1, left, 0, out).Failure?
  {
    assert "==="[1..] == "==" && "=="[1..] == "=" && "="[1..] == "";
    assert Scan("", 1, left, 0, out).Failure?;
    assert Scan("=", 1, left, 0, out).Failure?;
    assert Scan("==", 1, left, 0, out).Failure?;
  }

  /** b64dec of symbols alone fails if and only if one is left over. */
  lemma FailsExactly(s: string)
    requires forall i :: 0 <= i < |s| ==> Value(s[i]) >= 0
    ensures B64Dec(s).Failure? <==> |s| % 4 == 1
  {
    var pad := Padding((-|s|) % 4);
    forall i | 0 <= i < |s + pad| ensures (s + pad)[i] as int < 128 {
      PaddingIsEquals((-|s|) % 4);
    }
    if s == "" {
      assert s + pad == "";
    } else {
      var quad, left, out := SymbolsAdvance(s, pad, 0, 0, 0, []);
      PaddingEnds(quad, left, out);
      PadOfLength(|s|);
    }
  }

  lemma PadOfLength(n: int)
    ensures (-n) % 4 == (4 - n % 4) % 4
  {
  }

  lemma {:induction false} PaddingIsEquals(n: nat)
    ensures forall i :: 0 <= i < n ==> Padding(n)[i] == '='
  {
    if n > 0 {
      PaddingIsEquals(n - 1);
    }
  }
}
