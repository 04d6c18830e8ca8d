/** Base64 (section 4 of RFC 4648) as the client writes and reads it. */
module Base64 {
  import opened Types

  type Sextet = n: nat | n < 64

  predicate InAlphabet(c: char) { 'A' <= c <= 'Z' || 'a' <= c <= 'z' || '0' <= c <= '9' || c == '+' || c == '/' }

  /** The capital letters, the small letters, the digits, `+` and `/`. */
  function CharOf(v: Sextet): (c: char)
    ensures InAlphabet(c)
  {
    if v < 26 then 'A' + v as char
    else if v < 52 then 'a' + (v - 26) as char
    else if v < 62 then '0' + (v - 52) as char
    else if v == 62 then '+' else '/'
  }

  const CAPITALS: string := "ABCDEFGHIJKLMNOPQRSTUVWXYZ"
  const SMALL_LETTERS: string := "abcdefghijklmnopqrstuvwxyz"
  const REST: string := "0123456789+/"
  const ALPHABET: string := CAPITALS + SMALL_LETTERS + REST

  /** The characters of the sextets are the 64 of the alphabet, in its order. */
  lemma AlphabetInOrder(v: Sextet)
    ensures |ALPHABET| == 64 && CharOf(v) == ALPHABET[v]
  {
  }

  /** A character outside the alphabet reads as zero. */
  function ValueOf(c: char): Sextet {
    if 'A' <= c <= 'Z' then c as int - 'A' as int
    else if 'a' <= c <= 'z' then c as int - 'a' as int + 26
    else if '0' <= c <= '9' then c as int - '0' as int + 52
    else if c == '+' then 62 else if c == '/' then 63 else 0
  }

  lemma ValueOfCharOf(v: Sextet)
    ensures ValueOf(CharOf(v)) == v
  {
  }

  lemma CharOfValueOf(c: char)
    requires InAlphabet(c)
    ensures CharOf(ValueOf(c)) == c
  {
  }

  /** The index of each character of the alphabet, zero elsewhere. */
  predicate IsLookup(lookup: array<Sextet>)
    reads lookup
  {
    lookup.Length == 256 && forall c: char :: c as int < 256 ==> lookup[c as int] == ValueOf(c)
  }

  method BuildLookup() returns (lookup: array<Sextet>)
    ensures fresh(lookup) && IsLookup(lookup)
  {
    lookup := new Sextet[256](_ => 0);
    for i := 0 to 64
      invariant lookup.Length == 256
      invariant forall c: char :: c as int < 256 ==> lookup[c as int] == if ValueOf(c) < i then ValueOf(c) else 0
    {
      ValueOfCharOf(i);
      forall c: char | c as int < 256 && ValueOf(c) == i && i > 0 ensures c == CharOf(i) {
        CharOfValueOf(c);
      }
      lookup[CharOf(i) as int] := i;
    }
  }

  // ----- encoding -----

  /** Reading past the end of the bytes reads zero. */
  function ByteAt(bytes: seq<U8>, i: nat): U8 { if i < |bytes| then bytes[i] else 0 }

  function Quad(b0: U8, b1: U8, b2: U8): (quad: string)
    ensures |quad| == 4 && forall i :: 0 <= i < 4 ==> InAlphabet(quad[i])
  {
    [CharOf(b0 / 4), CharOf(b0 % 4 * 16 + b1 / 16), CharOf(b1 % 16 * 4 + b2 / 64), CharOf(b2 % 64)]
  }

  function Encode(bytes: seq<U8>): string {
    if bytes == [] then ""
    else
      var quad := Quad(bytes[0], ByteAt(bytes, 1), ByteAt(bytes, 2));
      if |bytes| == 1 then quad[..2] + "==" else if |bytes| == 2 then quad[..3] + "=" else quad + Encode(bytes[3..])
  }

  /** The whole groups, the last one filled up with zeros. */
  function Filled(bytes: seq<U8>): string {
    if bytes == [] then ""
    else Quad(bytes[0], ByteAt(bytes, 1), ByteAt(bytes, 2)) + Filled(bytes[Min(3, |bytes|)..])
  }

  function Trimmed(base64: string, len: nat): string
    requires len % 3 != 0 ==> |base64| >= 2
  {
    if len % 3 == 2 then base64[..|base64| - 1] + "=" else if len % 3 == 1 then base64[..|base64| - 2] + "==" else base64
  }

  lemma {:induction false} TrimmedIsEncoded(bytes: seq<U8>)
    ensures bytes != [] ==> |Filled(bytes)| >= 4
    ensures (|bytes| % 3 != 0 ==> |Filled(bytes)| >= 2) && Trimmed(Filled(bytes), |bytes|) == Encode(bytes)
  {
    hide CharOf;
    hide ValueOf;
    hide InAlphabet;
    hide Quad;
    hide Triple;
    if |bytes| >= 3 {
      TrimmedIsEncoded(bytes[3..]);
      var quad, rest := Quad(bytes[0], bytes[1], bytes[2]), Filled(bytes[3..]);
      assert |bytes| % 3 == |bytes[3..]| % 3;
      assert |bytes[3..]| % 3 == 2 ==> (quad + rest)[..|quad + rest| - 1] == quad + rest[..|rest| - 1];
      assert |bytes[3..]| % 3 == 1 ==> (quad + rest)[..|quad + rest| - 2] == quad + rest[..|rest| - 2];
    } else if |bytes| > 0 {
      assert bytes[|bytes|..] == [];
    }
  }

  lemma FilledStep(bytes: seq<U8>, i: nat)
    requires i < |bytes|
    ensures Filled(bytes[i..])
         == Quad(bytes[i], ByteAt(bytes, i + 1), ByteAt(bytes, i + 2)) + Filled(bytes[Min(i + 3, |bytes|)..])
  {
    hide Quad;
    var rest := bytes[i..];
    assert rest[Min(3, |rest|)..] == bytes[Min(i + 3, |bytes|)..];
  }

  method EncodeBytes(bytes: seq<U8>) returns (base64: string)
    ensures base64 == Encode(bytes)
  {
    hide Filled;
    hide Encode;
    hide CharOf;
    hide InAlphabet;
    base64 := "";
    var len := |bytes|;
    var i := 0;
    assert bytes[0..] == bytes;
    while i < len
      invariant Filled(bytes) == base64 + Filled(bytes[Min(i, len)..])
    {
      FilledStep(bytes, i);
      var b0, b1, b2 := bytes[i], ByteAt(bytes, i + 1), ByteAt(bytes, i + 2);
      base64 := base64 + [CharOf(b0 / 4), CharOf(b0 % 4 * 16 + b1 / 16), CharOf(b1 % 16 * 4 + b2 / 64), CharOf(b2 % 64)];
      i := i + 3;
    }
    FilledNone();
    assert bytes[Min(i, len)..] == [];
    TrimmedIsEncoded(bytes);
    if len % 3 == 2 {
      base64 := base64[..|base64| - 1] + "=";
    } else if len % 3 == 1 {
      base64 := base64[..|base64| - 2] + "==";
    }
  }

  lemma FilledNone()
    ensures Filled([]) == ""
  {
  }

  // ----- decoding -----

  function SextetAt(s: string, i: nat): Sextet { if i < |s| then ValueOf(s[i]) else 0 }

  function Triple(e1: Sextet, e2: Sextet, e3: Sextet, e4: Sextet): (bytes: seq<U8>)
    ensures |bytes| == 3
  {
    [e1 * 4 + e2 / 16, e2 % 16 * 16 + e3 / 4, e3 % 4 * 64 + e4]
  }

  function Triples(s: string): seq<U8> {
    if s == "" then []
    else Triple(SextetAt(s, 0), SextetAt(s, 1), SextetAt(s, 2), SextetAt(s, 3)) + Triples(s[Min(4, |s|)..])
  }

  function Padding(s: string): nat {
    (if |s| >= 1 && s[|s| - 1] == '=' then 1 else 0) + (if |s| >= 2 && s[|s| - 2] == '=' then 1 else 0)
  }

  lemma {:induction false} TriplesLength(s: string)
    ensures 4 * |Triples(s)| >= 3 * |s|
  {
    if s != "" {
      TriplesLength(s[Min(4, |s|)..]);
    }
  }

  /** None when the computed length of the buffer is negative. */
  function Decode(s: string): Option<seq<U8>> {
    var length := |s| * 3 / 4;
    if length < Padding(s) then None
    else
      TriplesLength(s);
      Some(Triples(s)[..length - Padding(s)])
  }

  lemma TriplesStep(s: string, i: nat)
    requires i < |s|
    ensures Triples(s[i..])
         == Triple(SextetAt(s, i), SextetAt(s, i + 1), SextetAt(s, i + 2), SextetAt(s, i + 3)) + Triples(s[Min(i + 4, |s|)..])
  {
    hide Triple;
    hide ValueOf;
    var rest := s[i..];
    assert rest[Min(4, |rest|)..] == s[Min(i + 4, |s|)..];
  }

  lemma TriplesNone()
    ensures Triples("") == []
  {
  }

  /** A write past the end of the buffer is dropped. */
  method Write(bytes: array<U8>, p: nat, b: U8)
    modifies bytes
    ensures p < bytes.Length ==> bytes[p] == b
    ensures forall k :: 0 <= k < bytes.Length && k != p ==> bytes[k] == old(bytes[k])
  {
    if p < bytes.Length {
      bytes[p] := b;
    }
  }

  /** Reading past the end of the text or of the table reads zero. */
  function ReadAt(base64: string, i: nat, lookup: array<Sextet>): (e: Sextet)
    requires IsLookup(lookup)
    reads lookup
    ensures e == SextetAt(base64, i)
  {
    if i < |base64| && base64[i] as int < lookup.Length then lookup[base64[i] as int] else 0
  }

  /** Writes the bytes of all groups through a moving index. */
  method WriteAll(base64: string, lookup: array<Sextet>, bytes: array<U8>)
    requires IsLookup(lookup) && (lookup as object) != bytes
    requires bytes.Length <= |Triples(base64)|
    modifies bytes
    ensures bytes[..] == Triples(base64)[..bytes.Length]
  {
    hide Triples;
    hide Triple;
    hide ValueOf;
    hide IsLookup;
    var len := |base64|;
    var i, p := 0, 0;
    ghost var done: seq<U8> := [];
    assert base64[0..] == base64;
    while i < len
      invariant 0 <= i && p == |done| && Triples(base64) == done + Triples(base64[Min(i, len)..])
      invariant forall k :: 0 <= k < p && k < bytes.Length ==> bytes[k] == done[k]
    {
      TriplesStep(base64, i);
      var e1, e2 := ReadAt(base64, i, lookup), ReadAt(base64, i + 1, lookup);
      var e3, e4 := ReadAt(base64, i + 2, lookup), ReadAt(base64, i + 3, lookup);
      var triple := Triple(e1, e2, e3, e4);
      Write(bytes, p, triple[0]);
      Write(bytes, p + 1, triple[1]);
      Write(bytes, p + 2, triple[2]);
      p := p + 3;
      done := done + triple;
      i := i + 4;
    }
    TriplesNone();
    assert base64[Min(i, len)..] == "";
  }

  method DecodeString(base64: string) returns (ok: bool, bytes: array<U8>)
    ensures Decode(base64) == if ok then Some(bytes[..]) else None
  {
    hide Triples;
    var len := |base64|;
    var bufferLength := len * 3 / 4;
    if len >= 1 && base64[len - 1] == '=' {
      bufferLength := bufferLength - 1;
    }
    if len >= 2 && base64[len - 2] == '=' {
      bufferLength := bufferLength - 1;
    }
    if bufferLength < 0 {
      bytes := new U8[0];
      return false, bytes;
    }
    bytes := new U8[bufferLength];
    TriplesLength(base64);
    var lookup := BuildLookup();
    WriteAll(base64, lookup, bytes);
    return true, bytes;
  }

  // ----- round trips -----

  lemma QuadIsBits(b0: U8, b1: U8, b2: U8)
    ensures Triple(b0 / 4, b0 % 4 * 16 + b1 / 16, b1 % 16 * 4 + b2 / 64, b2 % 64) == [b0, b1, b2]
  {
  }

  lemma QuadReadsBack(b0: U8, b1: U8, b2: U8)
    ensures var q := Quad(b0, b1, b2);
            Triple(ValueOf(q[0]), ValueOf(q[1]), ValueOf(q[2]), ValueOf(q[3])) == [b0, b1, b2]
  {
    ValueOfCharOf(b0 / 4);
    ValueOfCharOf(b0 % 4 * 16 + b1 / 16);
    ValueOfCharOf(b1 % 16 * 4 + b2 / 64);
    ValueOfCharOf(b2 % 64);
    QuadIsBits(b0, b1, b2);
  }

  /** A full group at the front decodes by itself. */
  lemma DecodeFirst(quad: string, rest: string)
    requires |quad| == 4 && |rest| % 4 == 0 && (rest == "" ==> InAlphabet(quad[2]) && InAlphabet(quad[3]))
    ensures var t := Triple(ValueOf(quad[0]), ValueOf(quad[1]), ValueOf(quad[2]), ValueOf(quad[3]));
            Decode(quad + rest) == if Decode(rest).None? then None else Some(t + Decode(rest).value)
  {
    hide CharOf;
    hide ValueOf;
    hide Quad;
    hide Triple;
    var s, t := quad + rest, Triple(ValueOf(quad[0]), ValueOf(quad[1]), ValueOf(quad[2]), ValueOf(quad[3]));
    assert s[4..] == rest;
    assert Triples(s) == t + Triples(rest);
    TriplesLength(rest);
    assert |s| * 3 / 4 == 3 + |rest| * 3 / 4;
    if rest != "" {
      assert s[|s| - 1] == rest[|rest| - 1] && s[|s| - 2] == rest[|rest| - 2];
    }
    assert Padding(s) == Padding(rest);
    var n := |rest| * 3 / 4 - Padding(rest);
    assert n >= 0 by {
      assert |rest| >= 4 ==> |rest| * 3 / 4 >= 3;
    }
    assert (t + Triples(rest))[..3 + n] == t + Triples(rest)[..n];
  }

  lemma {:induction false} EncodedLength(bytes: seq<U8>)
    ensures |Encode(bytes)| % 4 == 0 && (bytes != [] <==> Encode(bytes) != "")
  {
    hide CharOf;
    hide ValueOf;
    hide InAlphabet;
    hide Quad;
    hide Triple;
    if |bytes| >= 3 {
      EncodedLength(bytes[3..]);
    }
  }

  /** What is encoded decodes to itself, for every byte array. */
  lemma {:induction false} DecodeOfEncode(bytes: seq<U8>)
    ensures Decode(Encode(bytes)) == Some(bytes)
  {
    hide CharOf;
    hide ValueOf;
    hide InAlphabet;
    hide Quad;
    hide Triple;
    if |bytes| >= 3 {
      var quad := Quad(bytes[0], bytes[1], bytes[2]);
      DecodeOfEncode(bytes[3..]);
      EncodedLength(bytes[3..]);
      DecodeFirst(quad, Encode(bytes[3..]));
      QuadReadsBack(bytes[0], bytes[1], bytes[2]);
      assert bytes == [bytes[0], bytes[1], bytes[2]] + bytes[3..];
    } else if |bytes| == 2 {
      DecodeOfTwo(bytes[0], bytes[1]);
      assert bytes == [bytes[0], bytes[1]];
    } else if |bytes| == 1 {
      DecodeOfOne(bytes[0]);
      assert bytes == [bytes[0]];
    }
  }

  lemma ShortTriples(s: string)
    requires |s| == 4
    ensures Triples(s) == Triple(ValueOf(s[0]), ValueOf(s[1]), ValueOf(s[2]), ValueOf(s[3]))
  {
    hide Triple;
    hide ValueOf;
    assert s[4..] == "";
    TriplesNone();
  }

  lemma DecodeOfOne(b: U8)
    ensures Decode(Encode([b])) == Some([b])
  {
    hide CharOf;
    hide Quad;
    hide Triple;
    var s, q := Encode([b]), Quad(b, 0, 0);
    QuadReadsBack(b, 0, 0);
    QuadValues(b, 0, 0);
    ShortTriples(s);
    assert ValueOf('=') == 0;
    hide ValueOf;
    assert s == [q[0], q[1], '=', '='];
    assert Triples(s) == [b, 0, 0];
    assert Triples(s)[..1] == [b];
  }

  lemma DecodeOfTwo(b0: U8, b1: U8)
    ensures Decode(Encode([b0, b1])) == Some([b0, b1])
  {
    hide CharOf;
    hide Quad;
    hide Triple;
    var s, q := Encode([b0, b1]), Quad(b0, b1, 0);
    QuadReadsBack(b0, b1, 0);
    QuadValues(b0, b1, 0);
    ShortTriples(s);
    assert ValueOf('=') == 0;
    hide ValueOf;
    assert s == [q[0], q[1], q[2], '='];
    assert Triples(s) == [b0, b1, 0];
    assert Triples(s)[..2] == [b0, b1];
  }

  lemma QuadValues(b0: U8, b1: U8, b2: U8)
    ensures var q := Quad(b0, b1, b2);
            && ValueOf(q[0]) == b0 / 4 && ValueOf(q[1]) == b0 % 4 * 16 + b1 / 16
            && ValueOf(q[2]) == b1 % 16 * 4 + b2 / 64 && ValueOf(q[3]) == b2 % 64
  {
    ValueOfCharOf(b0 / 4);
    ValueOfCharOf(b0 % 4 * 16 + b1 / 16);
    ValueOfCharOf(b1 % 16 * 4 + b2 / 64);
    ValueOfCharOf(b2 % 64);
  }

  /** Groups of four from the alphabet; the last may end in one or two `=`, and then its unused bits are zero. */
  predicate Canonical(s: string) {
    s == ""
    || (|s| >= 4 && InAlphabet(s[0]) && InAlphabet(s[1])
        && (if |s| > 4 then InAlphabet(s[2]) && InAlphabet(s[3]) && Canonical(s[4..])
            else if InAlphabet(s[3]) then InAlphabet(s[2])
            else if InAlphabet(s[2]) then s[3] == '=' && ValueOf(s[2]) % 4 == 0
            else s[2] == '=' && s[3] == '=' && ValueOf(s[1]) % 16 == 0))
  }

  lemma {:induction false} EncodeIsCanonical(bytes: seq<U8>)
    ensures Canonical(Encode(bytes))
  {
    hide CharOf;
    hide ValueOf;
    hide Quad;
    if |bytes| >= 3 {
      EncodeIsCanonical(bytes[3..]);
      EncodedLength(bytes[3..]);
      assert Encode(bytes)[4..] == Encode(bytes[3..]);
    } else if |bytes| > 0 {
      QuadValues(bytes[0], ByteAt(bytes, 1), 0);
      assert !InAlphabet('=');
    }
  }

  lemma TripleReadsBack(c0: char, c1: char, c2: char, c3: char)
    requires InAlphabet(c0) && InAlphabet(c1) && InAlphabet(c2) && InAlphabet(c3)
    ensures var t := Triple(ValueOf(c0), ValueOf(c1), ValueOf(c2), ValueOf(c3));
            Quad(t[0], t[1], t[2]) == [c0, c1, c2, c3]
  {
    TripleIsBits(ValueOf(c0), ValueOf(c1), ValueOf(c2), ValueOf(c3));
    CharOfValueOf(c0);
    CharOfValueOf(c1);
    CharOfValueOf(c2);
    CharOfValueOf(c3);
  }

  lemma TripleIsBits(e1: Sextet, e2: Sextet, e3: Sextet, e4: Sextet)
    ensures var t := Triple(e1, e2, e3, e4);
            t[0] / 4 == e1 && t[0] % 4 * 16 + t[1] / 16 == e2 && t[1] % 16 * 4 + t[2] / 64 == e3 && t[2] % 64 == e4
  {
  }

  lemma {:induction false} CanonicalLength(s: string)
    requires Canonical(s)
    ensures |s| % 4 == 0
  {
    hide CharOf;
    hide ValueOf;
    hide InAlphabet;
    hide Quad;
    hide Triple;
    if |s| > 4 {
      CanonicalLength(s[4..]);
    }
  }

  lemma EncodeFirst(t: seq<U8>, rest: seq<U8>)
    requires |t| == 3
    ensures Encode(t + rest) == Quad(t[0], t[1], t[2]) + Encode(rest)
  {
    hide Quad;
    assert (t + rest)[3..] == rest;
    if rest == [] {
      assert Quad(t[0], t[1], t[2]) + "" == Quad(t[0], t[1], t[2]);
    }
  }

  lemma FullGroup(c0: char, c1: char, c2: char, c3: char, rest: string)
    requires InAlphabet(c0) && InAlphabet(c1) && InAlphabet(c2) && InAlphabet(c3)
    requires |rest| % 4 == 0 && Decode(rest).Some? && Encode(Decode(rest).value) == rest
    ensures var s := [c0, c1, c2, c3] + rest; Decode(s).Some? && Encode(Decode(s).value) == s
  {
    var quad := [c0, c1, c2, c3];
    DecodeFirst(quad, rest);
    TripleReadsBack(c0, c1, c2, c3);
    hide Decode;
    hide Encode;
    hide CharOf;
    hide ValueOf;
    hide Quad;
    hide Triple;
    EncodeFirst(Triple(ValueOf(c0), ValueOf(c1), ValueOf(c2), ValueOf(c3)), Decode(rest).value);
  }

  lemma NoGroup()
    ensures Decode("").Some? && Encode(Decode("").value) == ""
  {
  }

  /** The first group of a text that is not a short last group. */
  lemma FirstGroup(s: string)
    requires Canonical(s) && |s| >= 4 && (|s| == 4 ==> InAlphabet(s[3]))
    ensures InAlphabet(s[0]) && InAlphabet(s[1]) && InAlphabet(s[2]) && InAlphabet(s[3])
    ensures Canonical(s[4..])
  {
    hide InAlphabet;
    hide ValueOf;
    if |s| == 4 {
      assert s[4..] == "";
    }
  }

  lemma {:induction false} EncodeOfDecode(s: string)
    requires Canonical(s)
    ensures Decode(s).Some? && Encode(Decode(s).value) == s
  {
    hide InAlphabet;
    hide Decode;
    hide Encode;
    CanonicalLength(s);
    if s == "" {
      NoGroup();
    } else if |s| == 4 && !InAlphabet(s[3]) {
      EncodeOfShort(s);
    } else {
      FirstGroup(s);
      CanonicalLength(s[4..]);
      EncodeOfDecode(s[4..]);
      FullGroup(s[0], s[1], s[2], s[3], s[4..]);
      FourAndRest(s);
    }
  }

  lemma FourAndRest(s: string)
    requires |s| >= 4
    ensures s == [s[0], s[1], s[2], s[3]] + s[4..]
  {
  }

  lemma EncodeOfShort(s: string)
    requires |s| == 4 && Canonical(s) && !InAlphabet(s[3])
    ensures Decode(s).Some? && Encode(Decode(s).value) == s
  {
    hide CharOf;
    hide Quad;
    hide Triple;
    var e0, e1, e2 := ValueOf(s[0]), ValueOf(s[1]), ValueOf(s[2]);
    ShortTriples(s);
    CharOfValueOf(s[0]);
    CharOfValueOf(s[1]);
    if InAlphabet(s[2]) {
      CharOfValueOf(s[2]);
    }
    assert ValueOf('=') == 0;
    hide ValueOf;
    hide InAlphabet;
    var t := Triples(s);
    assert t == Triple(e0, e1, e2, 0);
    TripleIsBits(e0, e1, e2, 0);
    EvenQuad(e0, e1, e2);
    var bytes := Decode(s).value;
    if s[2] != '=' {
      assert bytes == t[..2];
    } else {
      assert bytes == t[..1];
      assert t[1] == 0;
    }
  }

  /** Bits that are not used are zero. */
  lemma EvenQuad(e0: Sextet, e1: Sextet, e2: Sextet)
    ensures var t := Triple(e0, e1, e2, 0);
            && (e2 % 4 == 0 ==> Quad(t[0], t[1], 0)[..3] == [CharOf(e0), CharOf(e1), CharOf(e2)])
            && (e1 % 16 == 0 ==> Quad(t[0], 0, 0)[..2] == [CharOf(e0), CharOf(e1)])
            && (e1 % 16 == 0 && e2 == 0 ==> t[1] == 0)
  {
    hide CharOf;
    var t := Triple(e0, e1, e2, 0);
    assert t[0] / 4 == e0 && t[0] % 4 == e1 / 16 && t[1] / 16 == e1 % 16 && t[1] % 16 == e2 / 4;
  }

  /** Decoding and encoding again gives the same text exactly for canonically padded text. */
  lemma RoundTripIffCanonical(s: string)
    ensures Canonical(s) <==> Decode(s).Some? && Encode(Decode(s).value) == s
  {
    hide CharOf;
    hide ValueOf;
    hide InAlphabet;
    hide Quad;
    hide Triple;
    if Canonical(s) {
      EncodeOfDecode(s);
    } else if Decode(s).Some? {
      EncodeIsCanonical(Decode(s).value);
    }
  }

  // ----- groups as numbers -----

  lemma QuadIsNumber(b0: U8, b1: U8, b2: U8)
    ensures ((b0 / 4 * 64 + (b0 % 4 * 16 + b1 / 16)) * 64 + (b1 % 16 * 4 + b2 / 64)) * 64 + b2 % 64 == (b0 * 256 + b1) * 256 + b2
  {
  }

  lemma PaddingReads(b0: U8, b1: U8)
    ensures ValueOf('=') == 0 && ValueOf(Quad(b0, b1, 0)[3]) == 0 && ValueOf(Quad(b0, 0, 0)[2]) == 0
  {
    QuadValues(b0, b1, 0);
    QuadValues(b0, 0, 0);
    hide Quad;
    hide CharOf;
  }

  /** The padding reads as what it stands for. */
  lemma FirstReads(bytes: seq<U8>, i: nat)
    requires bytes != [] && i < 4
    ensures |Encode(bytes)| >= 4
    ensures ValueOf(Encode(bytes)[i]) == ValueOf(Quad(bytes[0], ByteAt(bytes, 1), ByteAt(bytes, 2))[i])
  {
    hide Quad;
    hide ValueOf;
    hide CharOf;
    hide InAlphabet;
    PaddingReads(bytes[0], ByteAt(bytes, 1));
  }

  lemma FirstIsNumber(bytes: seq<U8>)
    requires bytes != []
    ensures var e := Encode(bytes);
            && |e| >= 4
            && ((ValueOf(e[0]) * 64 + ValueOf(e[1])) * 64 + ValueOf(e[2])) * 64 + ValueOf(e[3])
               == (bytes[0] * 256 + ByteAt(bytes, 1)) * 256 + ByteAt(bytes, 2)
  {
    hide Quad;
    hide ValueOf;
    hide Encode;
    QuadValues(bytes[0], ByteAt(bytes, 1), ByteAt(bytes, 2));
    FirstReads(bytes, 0);
    FirstReads(bytes, 1);
    FirstReads(bytes, 2);
    FirstReads(bytes, 3);
    QuadIsNumber(bytes[0], ByteAt(bytes, 1), ByteAt(bytes, 2));
  }

  /** Every four characters spell the number that three bytes are, of which those past the end count as zero. */
  lemma {:induction false} EncodesNumbers(bytes: seq<U8>, g: nat)
    requires 3 * g < |bytes|
    ensures var e, c, b := Encode(bytes), 4 * g, 3 * g;
            && |e| >= c + 4
            && ((ValueOf(e[c]) * 64 + ValueOf(e[c + 1])) * 64 + ValueOf(e[c + 2])) * 64 + ValueOf(e[c + 3])
               == (ByteAt(bytes, b) * 256 + ByteAt(bytes, b + 1)) * 256 + ByteAt(bytes, b + 2)
  {
    hide Quad;
    hide ValueOf;
    if g == 0 {
      FirstIsNumber(bytes);
    } else {
      EncodesNumbers(bytes[3..], g - 1);
    }
  }

  /** The number that four characters spell; what is past the end or outside the alphabet counts as zero. */
  function GroupNumber(s: string, g: nat): nat {
    ((SextetAt(s, 4 * g) * 64 + SextetAt(s, 4 * g + 1)) * 64 + SextetAt(s, 4 * g + 2)) * 64 + SextetAt(s, 4 * g + 3)
  }

  lemma TripleIsNumber(e1: Sextet, e2: Sextet, e3: Sextet, e4: Sextet)
    ensures var t, n := Triple(e1, e2, e3, e4), ((e1 * 64 + e2) * 64 + e3) * 64 + e4;
            t[0] == n / 65536 && t[1] == n / 256 % 256 && t[2] == n % 256
  {
    var t := Triple(e1, e2, e3, e4);
    TripleIsSum(e1, e2, e3, e4);
    hide Triple;
    BytesOf(t[0], t[1], t[2], ((e1 * 64 + e2) * 64 + e3) * 64 + e4);
  }

  lemma TripleIsSum(e1: Sextet, e2: Sextet, e3: Sextet, e4: Sextet)
    ensures var t, n: nat := Triple(e1, e2, e3, e4), ((e1 * 64 + e2) * 64 + e3) * 64 + e4;
            n == 65536 * t[0] as nat + 256 * t[1] as nat + t[2] as nat
  {
    var high: nat, low: nat := e2 / 16, e3 / 4;
    assert e2 == high * 16 + e2 % 16 && e3 == low * 4 + e3 % 4;
  }

  lemma BytesOf(b0: U8, b1: U8, b2: U8, n: nat)
    requires n == 65536 * b0 + 256 * b1 + b2
    ensures b0 == n / 65536 && b1 == n / 256 % 256 && b2 == n % 256
  {
    assert n / 256 == b0 * 256 + b1;
  }

  lemma GroupLater(s: string, g: nat)
    requires |s| >= 4 && g > 0
    ensures GroupNumber(s, g) == GroupNumber(s[4..], g - 1)
  {
    hide ValueOf;
  }

  lemma {:induction false} TriplesAreNumbers(s: string, k: nat)
    requires k < |Triples(s)|
    ensures var n := GroupNumber(s, k / 3); Triples(s)[k] == if k % 3 == 0 then n / 65536 else if k % 3 == 1 then n / 256 % 256 else n % 256
    decreases |s|
  {
    hide ValueOf;
    hide Triple;
    if k < 3 {
      TripleIsNumber(SextetAt(s, 0), SextetAt(s, 1), SextetAt(s, 2), SextetAt(s, 3));
    } else {
      assert |s| > 4 by {
        ShortGroup(s);
      }
      GroupLater(s, k / 3);
      TriplesAreNumbers(s[4..], k - 3);
    }
  }

  lemma ShortGroup(s: string)
    ensures |s| <= 4 ==> |Triples(s)| <= 3
  {
    hide ValueOf;
    hide Triple;
    if 0 < |s| <= 4 {
      assert s[Min(4, |s|)..] == "";
    }
  }

  /** Any text whatever decodes, unless its padding is longer than the bytes: three bytes for four characters, less the padding,
      each a part of the number that its four characters spell. */
  lemma DecodesNumbers(s: string, k: nat)
    ensures var r := Decode(s);
            && (r.None? <==> |s| * 3 / 4 < Padding(s)) && (r.Some? ==> |r.value| == |s| * 3 / 4 - Padding(s))
            && (r.Some? && k < |r.value| ==>
                  var n := GroupNumber(s, k / 3);
                  r.value[k] == if k % 3 == 0 then n / 65536 else if k % 3 == 1 then n / 256 % 256 else n % 256)
  {
    hide Padding;
    hide GroupNumber;
    TriplesLength(s);
    if Decode(s).Some? && k < |Decode(s).value| {
      TriplesAreNumbers(s, k);
    }
  }
}
