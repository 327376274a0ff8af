/**
 * Base64 as used by `image_uri_utils.py`: `base64.b64encode` (the encoding of
 * section 4 of RFC 4648, with `=` padding) and `base64.b64decode` in its default,
 * non-validating mode.
 *
 * The decoder follows the character-by-character state machine of CPython's
 * `binascii.a2b_base64` with strict mode off: characters outside the alphabet are
 * skipped, a completed pad sequence ends the input, and a dangling partial
 * quantum is an error.
 */
module Base64 {
  import opened Wrappers

  newtype byte = b: int | 0 <= b < 256

  const Pad: char := '='

  /** The alphabet of Table 1 of RFC 4648: the character at index `v` stands for the 6-bit value `v`. */
  const Alphabet: string := Run('A', 26) + Run('a', 26) + Run('0', 10) + "+/"

  /** The `n` consecutive characters starting at `first`. */
  function Run(first: char, n: nat): (r: string)
    requires first as int + n <= 128
    ensures |r| == n && forall i :: 0 <= i < n ==> r[i] as int == first as int + i
  {
    seq(n, i requires 0 <= i < n => (first as int + i) as char)
  }

  /** The character of the RFC 4648 alphabet that stands for the 6-bit value `v`. */
  function Digit(v: nat): (c: char)
    requires v < 64
    ensures Sextet(c) == Some(v)
    ensures c != Pad && c != ','
  {
    if v < 26 then ('A' as int + v) as char
    else if v < 52 then ('a' as int + (v - 26)) as char
    else if v < 62 then ('0' as int + (v - 52)) as char
    else if v == 62 then '+'
    else '/'
  }

  /** The decoding table: the 6-bit value of an alphabet character, None for any other. */
  function Sextet(c: char): (v: Option<nat>)
    ensures v.Some? ==> v.value < 64
  {
    if 'A' <= c <= 'Z' then Some(c as int - 'A' as int)
    else if 'a' <= c <= 'z' then Some(c as int - 'a' as int + 26)
    else if '0' <= c <= '9' then Some(c as int - '0' as int + 52)
    else if c == '+' then Some(62)
    else if c == '/' then Some(63)
    else None
  }

  /** The alphabet at index `k` is the character `Digit` chooses for `k`. */
  lemma AlphabetAt(k: nat)
    requires k < 64
    ensures |Alphabet| == 64 && Alphabet[k] == Digit(k)
  {
    var upper, lower, digits := Run('A', 26), Run('a', 26), Run('0', 10);
    if k < 26 { assert Alphabet[k] == upper[k]; }
    else if k < 52 { assert Alphabet[k] == lower[k - 26]; }
    else if k < 62 { assert Alphabet[k] == digits[k - 52]; }
    else { assert Alphabet[62..] == "+/"; }
  }

  /** A character with a value is the one `Digit` chooses for that value. */
  lemma DigitOfSextet(c: char)
    requires Sextet(c).Some?
    ensures Digit(Sextet(c).value) == c
  {
  }

  /**
   * The decoding table is exactly the alphabet: a character has a value if and
   * only if it is in the alphabet, at that index; every other character (`=`,
   * a comma, white space, punctuation) has none and is skipped by the decoder.
   */
  lemma SextetTable(c: char)
    ensures |Alphabet| == 64
    ensures Sextet(c).Some? <==> c in Alphabet
    ensures Sextet(c).Some? ==> Alphabet[Sextet(c).value] == c
  {
    AlphabetAt(0);
    if Sextet(c).Some? {
      AlphabetAt(Sextet(c).value);
      DigitOfSextet(c);
    }
    if c in Alphabet {
      var k :| 0 <= k < 64 && Alphabet[k] == c;
      AlphabetAt(k);
    }
  }

  /** The four characters that encode three bytes. */
  function Quantum(a: byte, b: byte, c: byte): string
  {
    [ Digit(a as int / 4),
      Digit(a as int % 4 * 16 + b as int / 16),
      Digit(b as int % 16 * 4 + c as int / 64),
      Digit(c as int % 64) ]
  }

  /**
   * `base64.b64encode`: each group of three bytes becomes four characters; a final
   * group of one or two bytes is padded with `=` to four characters.
   */
  function Encode(bs: seq<byte>): (r: string)
    ensures |r| == 4 * ((|bs| + 2) / 3)
    ensures forall i :: 0 <= i < |r| ==> r[i] == Pad || Sextet(r[i]).Some?
    decreases |bs|
  {
    if |bs| == 0 then []
    else if |bs| == 1 then
      [Digit(bs[0] as int / 4), Digit(bs[0] as int % 4 * 16), Pad, Pad]
    else if |bs| == 2 then
      [ Digit(bs[0] as int / 4),
        Digit(bs[0] as int % 4 * 16 + bs[1] as int / 16),
        Digit(bs[1] as int % 16 * 4),
        Pad ]
    else Quantum(bs[0], bs[1], bs[2]) + Encode(bs[3..])
  }

  /** The decoder's state: position in the current quantum, bits carried over, pads seen. */
  datatype Quad = Quad(pos: nat, left: nat, pads: nat)

  /** The carried bits always fit in what the next output byte leaves free. */
  predicate Fits(q: Quad)
  {
    && q.pos < 4
    && (q.pos == 1 ==> q.left < 64)
    && (q.pos == 2 ==> q.left < 16)
    && (q.pos == 3 ==> q.left < 4)
  }

  const Start: Quad := Quad(0, 0, 0)

  datatype DecodeError =
    | NonAscii                 // the str argument held a character above U+007F
    | LoneDataChar(count: nat) // one data character past a whole number of quanta
    | IncorrectPadding         // two or three data characters left without padding

  /** What one character does to the decoder: carry on from a new state, or stop at completed padding. */
  datatype Step = Continue(q: Quad, out: seq<byte>) | Done

  /**
   * The body of the non-strict decoding loop for character `c`. A `=` after at
   * least two data characters of a quantum counts towards its padding and stops
   * the loop once the quantum is complete; any other character outside the
   * alphabet is skipped.
   */
  function Next(c: char, q: Quad, out: seq<byte>): (r: Step)
    requires Fits(q)
    ensures r.Continue? ==> Fits(r.q) && out <= r.out
    ensures r.Done? ==> c == Pad && q.pos >= 2
  {
    if c == Pad then
      if q.pos >= 2 && q.pos + q.pads + 1 >= 4 then Done
      else if q.pos >= 2 then Continue(q.(pads := q.pads + 1), out)
      else Continue(q, out)
    else match Sextet(c)
      case None => Continue(q, out)
      case Some(v) => Continue(Advance(q, v), Emitted(q, v, out))
  }

  /** The end of the input: only a whole number of quanta is accepted. */
  function Finish(q: Quad, out: seq<byte>): (r: Result<seq<byte>, DecodeError>)
    ensures r.Ok? <==> q.pos == 0
    ensures r.Ok? ==> r.value == out
  {
    if q.pos == 0 then Ok(out)
    else if q.pos == 1 then Err(LoneDataChar(|out| / 3 * 4 + 1))
    else Err(IncorrectPadding)
  }

  /** The non-strict decoding loop over `s`, from state `q`, having produced `out`. */
  function Scan(s: string, q: Quad, out: seq<byte>): (r: Result<seq<byte>, DecodeError>)
    requires Fits(q)
    ensures r != Err(NonAscii)
    decreases |s|
  {
    if s == [] then Finish(q, out)
    else match Next(s[0], q, out)
      case Done => Ok(out)
      case Continue(q', out') => Scan(s[1..], q', out')
  }

  /**
   * The loop only ever appends to its output, and a lone data character is
   * always reported with a count one more than a multiple of four.
   */
  lemma {:induction false} ScanOutcome(s: string, q: Quad, out: seq<byte>)
    requires Fits(q)
    ensures Scan(s, q, out).Ok? ==> out <= Scan(s, q, out).value
    ensures Scan(s, q, out).Err? && Scan(s, q, out).error.LoneDataChar? ==> Scan(s, q, out).error.count % 4 == 1
    decreases |s|
  {
    if s != [] {
      match Next(s[0], q, out)
      case Done =>
      case Continue(q', out') => ScanOutcome(s[1..], q', out');
    }
  }

  predicate IsAscii(s: string)
  {
    forall i :: 0 <= i < |s| ==> s[i] as int < 128
  }

  /**
   * `base64.b64decode(s)` for a str `s`: it must be ASCII, and is then decoded
   * by the non-strict loop. The only error that blames the characters
   * themselves is a non-ASCII one.
   */
  function Decode(s: string): (r: Result<seq<byte>, DecodeError>)
    ensures r == Err(NonAscii) <==> !IsAscii(s)
  {
    if !IsAscii(s) then Err(NonAscii) else Scan(s, Start, [])
  }

  /** The decimal rendering of `n`, as `%zd` prints it. */
  function Decimal(n: nat): (r: string)
    ensures |r| > 0 && forall i :: 0 <= i < |r| ==> '0' <= r[i] <= '9'
  {
    if n < 10 then [('0' as int + n) as char]
    else Decimal(n / 10) + [('0' as int + n % 10) as char]
  }

  /** The text of the exception raised for each decoding error, i.e. `str(e)`. */
  function Message(e: DecodeError): string
  {
    match e
    case NonAscii => "string argument should contain only ASCII characters"
    case LoneDataChar(n) =>
      "Invalid base64-encoded string: number of data characters (" + Decimal(n)
      + ") cannot be 1 more than a multiple of 4"
    case IncorrectPadding => "Incorrect padding"
  }

  /** Different counts print differently. */
  lemma {:induction false} DecimalInjective(m: nat, n: nat)
    requires Decimal(m) == Decimal(n)
    ensures m == n
    decreases n
  {
    var dm, dn := Decimal(m), Decimal(n);
    if m < 10 && n < 10 {
      assert dm[0] == dn[0];
    } else if m >= 10 && n >= 10 {
      assert dm[|dm| - 1] == dn[|dn| - 1];
      assert dm[..|dm| - 1] == Decimal(m / 10);
      assert dn[..|dn| - 1] == Decimal(n / 10);
      DecimalInjective(m / 10, n / 10);
    }
  }

  /**
   * The exception text identifies the decoding error: different errors have
   * different texts, and the lone-character text names its count exactly.
   */
  lemma MessagesDistinct(e1: DecodeError, e2: DecodeError)
    ensures Message(e1) == Message(e2) <==> e1 == e2
  {
    if Message(e1) == Message(e2) {
      MessageLength(e1);
      MessageLength(e2);
      if e1.LoneDataChar? && e2.LoneDataChar? {
        var t, d1, d2 := Message(e1), Decimal(e1.count), Decimal(e2.count);
        assert t[58..58 + |d1|] == d1 && t[58..58 + |d2|] == d2;
        DecimalInjective(e1.count, e2.count);
      }
    }
  }

  /**
   * The lengths of the texts tell the three kinds of error apart; the count of
   * the lone-character text sits after a fixed 58-character opening.
   */
  lemma MessageLength(e: DecodeError)
    ensures |Message(e)| == match e
      case NonAscii => 52
      case IncorrectPadding => 17
      case LoneDataChar(n) => 97 + |Decimal(n)|
    ensures e.LoneDataChar? ==> Message(e)[58..58 + |Decimal(e.count)|] == Decimal(e.count)
  {
  }

  /** The encoded text holds no comma, so a data URI splits before it, never inside it. */
  lemma EncodeHasNoComma(bs: seq<byte>)
    ensures ',' !in Encode(bs)
  {
  }

  /** A data character moves the decoder to the next position of the quantum. */
  lemma DataStep(c: char, t: string, q: Quad, out: seq<byte>)
    requires Fits(q) && Sextet(c).Some?
    ensures Scan([c] + t, q, out) == Scan(t, Advance(q, Sextet(c).value), Emitted(q, Sextet(c).value, out))
  {
    assert ([c] + t)[0] == c && ([c] + t)[1..] == t;
  }

  /** The state after data character `v` at position `q.pos`. */
  function Advance(q: Quad, v: nat): (n: Quad)
    requires Fits(q) && v < 64
    ensures Fits(n) && n.pos == (q.pos + 1) % 4
  {
    if q.pos == 0 then Quad(1, v, 0)
    else if q.pos == 1 then Quad(2, v % 16, 0)
    else if q.pos == 2 then Quad(3, v % 4, 0)
    else Start
  }

  /** The output after data character `v` at position `q.pos`: every position but the first completes a byte. */
  function Emitted(q: Quad, v: nat, out: seq<byte>): (r: seq<byte>)
    requires Fits(q) && v < 64
    ensures |r| == |out| + (if q.pos == 0 then 0 else 1) && out <= r
  {
    if q.pos == 0 then out
    else if q.pos == 1 then out + [(q.left * 4 + v / 16) as byte]
    else if q.pos == 2 then out + [(q.left * 16 + v / 4) as byte]
    else out + [(q.left * 64 + v) as byte]
  }

  /** The sextets of a quantum put back together give the three bytes it came from. */
  lemma QuantumArithmetic(a: byte, b: byte, c: byte)
    ensures var c0, c1, c2, c3 := a as int / 4, a as int % 4 * 16 + b as int / 16,
                                  b as int % 16 * 4 + c as int / 64, c as int % 64;
      && c0 * 4 + c1 / 16 == a as int && c1 % 16 == b as int / 16
      && c1 % 16 * 16 + c2 / 4 == b as int && c2 % 4 == c as int / 64
      && c2 % 4 * 64 + c3 == c as int
  {
  }

  /** Four characters of a full quantum give back the three bytes they encode. */
  lemma QuantumDecodes(a: byte, b: byte, c: byte, t: string, out: seq<byte>)
    ensures Scan(Quantum(a, b, c) + t, Start, out) == Scan(t, Start, out + [a, b, c])
  {
    var v0, v1, v2, v3 := a as int / 4, a as int % 4 * 16 + b as int / 16, b as int % 16 * 4 + c as int / 64, c as int % 64;
    var q1, q2, q3 := Quad(1, v0, 0), Quad(2, b as int / 16, 0), Quad(3, c as int / 64, 0);
    var s3 := [Digit(v3)] + t;
    var s2 := [Digit(v2)] + s3;
    var s1 := [Digit(v1)] + s2;
    var s0 := [Digit(v0)] + s1;
    assert Quantum(a, b, c) + t == s0;
    DecodesTo(s0, Start, out, v0, q1, out);
    FirstByte(a, b, out);
    DecodesTo(s1, q1, out, v1, q2, out + [a]);
    SecondByte(b, c, out + [a]);
    DecodesTo(s2, q2, out + [a], v2, q3, out + [a] + [b]);
    ThirdByte(c, out + [a] + [b]);
    DecodesTo(s3, q3, out + [a] + [b], v3, Start, out + [a] + [b] + [c]);
    assert out + [a] + [b] + [c] == out + [a, b, c];
  }

  /** One data character at the head of `s`. */
  lemma DecodesTo(s: string, q: Quad, out: seq<byte>, v: nat, q': Quad, out': seq<byte>)
    requires Fits(q) && v < 64 && s != [] && Sextet(s[0]) == Some(v)
    requires q' == Advance(q, v) && out' == Emitted(q, v, out)
    ensures Scan(s, q, out) == Scan(s[1..], q', out')
  {
  }

  lemma FirstByte(a: byte, b: byte, out: seq<byte>)
    ensures Advance(Quad(1, a as int / 4, 0), a as int % 4 * 16 + b as int / 16) == Quad(2, b as int / 16, 0)
    ensures Emitted(Quad(1, a as int / 4, 0), a as int % 4 * 16 + b as int / 16, out) == out + [a]
  {
  }

  lemma SecondByte(b: byte, c: byte, out: seq<byte>)
    ensures Advance(Quad(2, b as int / 16, 0), b as int % 16 * 4 + c as int / 64) == Quad(3, c as int / 64, 0)
    ensures Emitted(Quad(2, b as int / 16, 0), b as int % 16 * 4 + c as int / 64, out) == out + [b]
  {
  }

  lemma ThirdByte(c: byte, out: seq<byte>)
    ensures Advance(Quad(3, c as int / 64, 0), c as int % 64) == Start
    ensures Emitted(Quad(3, c as int / 64, 0), c as int % 64, out) == out + [c]
  {
  }

  /** A final single byte, `xy==`, decodes to that byte and ends at the second pad. */
  lemma OneByteTail(bs: seq<byte>, out: seq<byte>)
    requires |bs| == 1
    ensures Scan(Encode(bs), Start, out) == Ok(out + bs)
  {
    var a := bs[0];
    assert bs == [a];
    var e := Encode(bs);
    var c0 := a as int / 4;
    QuantumArithmetic(a, 0, 0);
    assert e == [e[0]] + ([e[1]] + [Pad, Pad]);
    DataStep(e[0], [e[1]] + [Pad, Pad], Start, out);
    DataStep(e[1], [Pad, Pad], Quad(1, c0, 0), out);
    assert [Pad, Pad][1..] == [Pad];
  }

  /** A final pair of bytes, `xyz=`, decodes to those bytes and ends at the pad. */
  lemma TwoByteTail(bs: seq<byte>, out: seq<byte>)
    requires |bs| == 2
    ensures Scan(Encode(bs), Start, out) == Ok(out + bs)
  {
    var a, b := bs[0], bs[1];
    assert bs == [a, b];
    var e := Encode(bs);
    var c0, c1 := a as int / 4, a as int % 4 * 16 + b as int / 16;
    QuantumArithmetic(a, b, 0);
    assert e == [e[0]] + ([e[1]] + ([e[2]] + [Pad]));
    DataStep(e[0], [e[1]] + ([e[2]] + [Pad]), Start, out);
    DataStep(e[1], [e[2]] + [Pad], Quad(1, c0, 0), out);
    DataStep(e[2], [Pad], Quad(2, b as int / 16, 0), out + [a]);
    assert out + [a] + [b] == out + [a, b];
  }

  /** Three bytes or more: the first quantum, then the encoding of the rest. */
  lemma EncodeStep(bs: seq<byte>)
    requires |bs| >= 3
    ensures Encode(bs) == Quantum(bs[0], bs[1], bs[2]) + Encode(bs[3..])
  {
  }

  /** Decoding the first quantum of a longer encoding leaves the encoding of the rest. */
  lemma LeadingQuantum(bs: seq<byte>, out: seq<byte>)
    requires |bs| >= 3
    requires Scan(Encode(bs[3..]), Start, out + bs[..3]) == Ok(out + bs[..3] + bs[3..])
    ensures Scan(Encode(bs), Start, out) == Ok(out + bs)
  {
    var head, rest := bs[..3], bs[3..];
    assert head == [bs[0], bs[1], bs[2]];
    assert out + head + rest == out + bs by {
      assert head + rest == bs;
    }
    EncodeStep(bs);
    QuantumDecodes(bs[0], bs[1], bs[2], Encode(rest), out);
  }

  /** Decoding what `Encode` produced, from a quantum boundary, appends exactly the encoded bytes. */
  lemma {:induction false} ScanEncoded(bs: seq<byte>, out: seq<byte>)
    ensures Scan(Encode(bs), Start, out) == Ok(out + bs)
    decreases |bs|
  {
    if |bs| == 0 {
      assert out + bs == out;
    } else if |bs| == 1 {
      OneByteTail(bs, out);
    } else if |bs| == 2 {
      TwoByteTail(bs, out);
    } else {
      ScanEncoded(bs[3..], out + bs[..3]);
      LeadingQuantum(bs, out);
    }
  }

  /** Round trip: `b64decode(b64encode(bs)) == bs` for every byte sequence. */
  lemma RoundTrip(bs: seq<byte>)
    ensures Decode(Encode(bs)) == Ok(bs)
  {
    var e := Encode(bs);
    forall i | 0 <= i < |e| ensures e[i] as int < 128 {
      assert e[i] == Pad || Sextet(e[i]).Some?;
    }
    ScanEncoded(bs, []);
    assert [] + bs == bs;
  }
}
