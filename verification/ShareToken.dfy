/** Share tokens (src/share.rs): `base64url(payload).base64url(mac(payload))`, with
    the payload `id:index:expiry:user`. */
module ShareToken {
  import opened Basics
  import opened BitGroups
  import Decimal

  const COLON: byte := 0x3a
  const DOT: byte := 0x2e

  // ---- base64url without padding (RFC 4648 section 5) ------------------------

  function Letter(v: nat): byte
    requires v < 64
  {
    if v < 26 then 0x41 + v
    else if v < 52 then 0x61 + (v - 26)
    else if v < 62 then 0x30 + (v - 52)
    else if v == 62 then 0x2d
    else 0x5f
  }

  predicate InAlphabet(c: byte)
  {
    0x41 <= c <= 0x5a || 0x61 <= c <= 0x7a || 0x30 <= c <= 0x39 || c == 0x2d || c == 0x5f
  }

  function Position(c: byte): (v: nat)
    requires InAlphabet(c)
    ensures v < 64 && Letter(v) == c
  {
    if 0x41 <= c <= 0x5a then c - 0x41
    else if 0x61 <= c <= 0x7a then c - 0x61 + 26
    else if 0x30 <= c <= 0x39 then c - 0x30 + 52
    else if c == 0x2d then 62
    else 63
  }

  function Letters(vals: seq<nat>): (text: Bytes)
    requires forall i :: 0 <= i < |vals| ==> vals[i] < 64
  {
    seq(|vals|, i requires 0 <= i < |vals| => Letter(vals[i]))
  }

  predicate AllLetters(text: Bytes) { forall i :: 0 <= i < |text| ==> InAlphabet(text[i]) }

  function Positions(text: Bytes): (vals: seq<nat>)
    requires AllLetters(text)
    ensures |vals| == |text| && forall i :: 0 <= i < |vals| ==> vals[i] < 64
  {
    seq(|text|, i requires 0 <= i < |text| => Position(text[i]))
  }

  function Armored(data: Bytes): Bytes
  {
    assert Pow2(6) == 64;
    Letters(Groups(Ungrouped(data, 8), 6))
  }

  /** What the bits of a text leave over after its whole bytes must be less than
      one letter, and zero. */
  predicate CleanEnd(bits: Bits)
  {
    && |bits| % 8 < 6
    && bits[|bits| - |bits| % 8..] == Zeros(|bits| % 8)
  }

  function Unarmored(text: Bytes): Option<Bytes>
  {
    if AllLetters(text) && CleanEnd(Ungrouped(Positions(text), 6))
    then Some(WholeBytes(Ungrouped(Positions(text), 6)))
    else None
  }

  lemma PositionsOfLetters(vals: seq<nat>)
    requires forall i :: 0 <= i < |vals| ==> vals[i] < 64
    ensures AllLetters(Letters(vals)) && Positions(Letters(vals)) == vals
  {
    forall i | 0 <= i < |vals|
      ensures InAlphabet(Letter(vals[i])) && Position(Letter(vals[i])) == vals[i]
    {
    }
  }

  lemma ArmorRoundTrip(data: Bytes)
    ensures Unarmored(Armored(data)) == Some(data)
  {
    assert Pow2(6) == 64;
    PositionsOfLetters(Groups(Ungrouped(data, 8), 6));
    CleanBits(data, 8, 6);
  }

  /** `k` is the width of a letter, a parameter for the same reason as `ByteWide`. */
  predicate LetterWide(k: nat) { 5 < k < 7 }

  lemma CleanBits(data: Bytes, n: nat, k: nat)
    requires ByteWide(n) && LetterWide(k)
    ensures CleanEnd(Ungrouped(Groups(Ungrouped(data, n), k), k))
    ensures WholeBytes(Ungrouped(Groups(Ungrouped(data, n), k), k)) == data
  {
    var bits := Ungrouped(data, n);
    var pad := UngroupGroups(bits, k);
    WholeBytesOfBits(data, n);
    EndsClean(bits + Zeros(pad), bits, pad);
    RegroupRoundTrip(data, n, k);
  }

  lemma EndsClean(whole: Bits, bits: Bits, pad: nat)
    requires |bits| % 8 == 0 && pad < 6 && whole == bits + Zeros(pad)
    ensures CleanEnd(whole)
  {
  }

  /** Decoding accepts nothing but what encoding produces. */
  lemma ArmorIsCanonical(text: Bytes)
    ensures Unarmored(text).Some? ==> text == Armored(Unarmored(text).value)
  {
    assert Pow2(6) == 64;
    if Unarmored(text).Some? { CleanGroups(Positions(text), Unarmored(text).value, 8, 6); }
  }

  lemma CleanGroups(vals: seq<nat>, data: Bytes, n: nat, k: nat)
    requires ByteWide(n) && LetterWide(k) && forall i :: 0 <= i < |vals| ==> vals[i] < 64
    requires CleanEnd(Ungrouped(vals, k)) && WholeBytes(Ungrouped(vals, k)) == data
    ensures Groups(Ungrouped(data, n), k) == vals
  {
    assert Pow2(6) == 64;
    var bits := Ungrouped(vals, k);
    var _, rest := BitsOfWholeBytes(bits, n);
    assert bits[|bits| - |rest|..] == rest;
    GroupsUngrouped(Ungrouped(data, n), |rest|, vals, k);
  }

  lemma ArmorFree(data: Bytes)
    ensures DOT !in Armored(data)
  {
    assert Pow2(6) == 64;
  }

  /** The alphabet of RFC 4648 section 5, in two halves. */
  const ALPHABET_LOW: Bytes := [
    0x41, 0x42, 0x43, 0x44, 0x45, 0x46, 0x47, 0x48, 0x49, 0x4a, 0x4b, 0x4c, 0x4d, 0x4e, 0x4f, 0x50,
    0x51, 0x52, 0x53, 0x54, 0x55, 0x56, 0x57, 0x58, 0x59, 0x5a, 0x61, 0x62, 0x63, 0x64, 0x65, 0x66]

  const ALPHABET_HIGH: Bytes := [
    0x67, 0x68, 0x69, 0x6a, 0x6b, 0x6c, 0x6d, 0x6e, 0x6f, 0x70, 0x71, 0x72, 0x73, 0x74, 0x75, 0x76,
    0x77, 0x78, 0x79, 0x7a, 0x30, 0x31, 0x32, 0x33, 0x34, 0x35, 0x36, 0x37, 0x38, 0x39, 0x2d, 0x5f]

  lemma LetterIsOfTheAlphabet(v: nat)
    requires v < 64
    ensures v < 32 ==> Letter(v) == ALPHABET_LOW[v]
    ensures v >= 32 ==> Letter(v) == ALPHABET_HIGH[v - 32]
  {
    if v < 32 { LowHalf(v); } else { HighHalf(v - 32); }
  }

  lemma LowHalf(v: nat)
    requires v < 32
    ensures Letter(v) == ALPHABET_LOW[v]
  {
  }

  lemma HighHalf(v: nat)
    requires v < 32
    ensures Letter(v + 32) == ALPHABET_HIGH[v]
  {
  }

  /** The letters are, in order, the base-64 digits of the number the bytes are the base-256 digits
      of, moved up by the few zero bits that fill the last letter. */
  lemma ArmorSpellsTheNumber(data: Bytes) returns (vals: seq<nat>, pad: nat)
    ensures (forall i :: 0 <= i < |vals| ==> vals[i] < 64) && Armored(data) == Letters(vals)
    ensures pad < 6 && |vals| * 6 == |data| * 8 + pad
    ensures Number(vals, 64) == Number(data, 256) * Pow2(pad)
  {
    assert Pow2(6) == 64;
    vals := Groups(Ungrouped(data, 8), 6);
    pad := RegroupKeepsNumber(data, 8, 6, 64);
  }

  // ---- splitting -----------------------------------------------------------

  /** `split_once` on one byte. */
  function SplitOnce(s: Bytes, sep: byte): (r: Option<(Bytes, Bytes)>)
    ensures r.None? <==> sep !in s
    ensures r.Some? ==> sep !in r.value.0 && s == r.value.0 + [sep] + r.value.1
  {
    if s == [] then None
    else if s[0] == sep then Some(([], s[1..]))
    else match SplitOnce(s[1..], sep)
      case None => None
      case Some(parts) => Some(([s[0]] + parts.0, parts.1))
  }

  /** Where the first separator is decides the split. */
  lemma {:induction false} SplitOnceAt(a: Bytes, b: Bytes, sep: byte)
    requires sep !in a
    ensures SplitOnce(a + [sep] + b, sep) == Some((a, b))
  {
    var s := a + [sep] + b;
    if a == [] {
      assert s[0] == sep && s[1..] == b;
    } else {
      assert s[0] == a[0] && s[1..] == a[1..] + [sep] + b;
      SplitOnceAt(a[1..], b, sep);
      assert [a[0]] + a[1..] == a;
    }
  }

  // ---- tokens ----------------------------------------------------------------

  datatype Claim = Claim(id: Bytes, user: Bytes, index: nat, exp: nat)

  /** The keyed hash, and which byte strings are UTF-8. */
  datatype Sealing = Sealing(mac: Bytes -> Bytes, isText: Bytes -> bool)

  function Payload(c: Claim): Bytes
  {
    c.id + [COLON] + (Decimal.Print(c.index) + [COLON] + (Decimal.Print(c.exp) + [COLON] + c.user))
  }

  function Sealed(s: Sealing, payload: Bytes): Bytes
  {
    Armored(payload) + [DOT] + Armored(s.mac(payload))
  }

  function Token(s: Sealing, c: Claim): Bytes { Sealed(s, Payload(c)) }

  /** `splitn(4, ':')` and the two numbers. */
  function Parsed(payload: Bytes): Option<Claim>
  {
    match SplitOnce(payload, COLON)
    case None => None
    case Some(a) =>
      match SplitOnce(a.1, COLON)
      case None => None
      case Some(b) =>
        match (Decimal.Parse(b.0, U64_MAX), SplitOnce(b.1, COLON))
        case (Some(index), Some(c)) =>
          (match Decimal.Parse(c.0, U64_MAX)
           case None => None
           case Some(exp) => Some(Claim(a.0, c.1, index, exp)))
        case (_, _) => None
  }

  /** The signed payload of a token. */
  function Opened(s: Sealing, token: Bytes): Option<Bytes>
  {
    match SplitOnce(token, DOT)
    case None => None
    case Some(halves) =>
      match (Unarmored(halves.0), Unarmored(halves.1))
      case (Some(payload), Some(sig)) => if s.mac(payload) == sig then Some(payload) else None
      case (_, _) => None
  }

  function Verified(s: Sealing, token: Bytes): Option<Claim>
  {
    match Opened(s, token)
    case None => None
    case Some(payload) => if s.isText(payload) then Parsed(payload) else None
  }

  lemma ParsedPayload(c: Claim)
    requires COLON !in c.id && c.index <= U64_MAX && c.exp <= U64_MAX
    ensures Parsed(Payload(c)) == Some(c)
  {
    var i, e := Decimal.Print(c.index), Decimal.Print(c.exp);
    Decimal.PrintFree(c.index, COLON);
    Decimal.PrintFree(c.exp, COLON);
    Decimal.ParsePrint(c.index, U64_MAX);
    Decimal.ParsePrint(c.exp, U64_MAX);
    SplitOnceAt(c.id, i + [COLON] + (e + [COLON] + c.user), COLON);
    SplitOnceAt(i, e + [COLON] + c.user, COLON);
    SplitOnceAt(e, c.user, COLON);
  }

  lemma OpenedSealed(s: Sealing, payload: Bytes)
    ensures Opened(s, Sealed(s, payload)) == Some(payload)
  {
    ArmorFree(payload);
    SplitOnceAt(Armored(payload), Armored(s.mac(payload)), DOT);
    ArmorRoundTrip(payload);
    ArmorRoundTrip(s.mac(payload));
  }

  /** Verifying gives back exactly what was signed, for every user name, colons
      included. */
  lemma TokenRoundTrip(s: Sealing, c: Claim)
    requires COLON !in c.id && c.index <= U64_MAX && c.exp <= U64_MAX && s.isText(Payload(c))
    ensures Verified(s, Token(s, c)) == Some(c)
  {
    OpenedSealed(s, Payload(c));
    ParsedPayload(c);
  }

  /** No two claims share a token. */
  lemma TokensDiffer(s: Sealing, c: Claim, d: Claim)
    requires COLON !in c.id && c.index <= U64_MAX && c.exp <= U64_MAX && s.isText(Payload(c))
    requires COLON !in d.id && d.index <= U64_MAX && d.exp <= U64_MAX && s.isText(Payload(d))
    ensures Token(s, c) == Token(s, d) <==> c == d
  {
    TokenRoundTrip(s, c);
    TokenRoundTrip(s, d);
  }

  /** A payload has one spelling as a token: every accepted token is the sealed
      form of what it carries. */
  lemma AcceptedIsSealed(s: Sealing, token: Bytes)
    ensures Opened(s, token).Some? ==> token == Sealed(s, Opened(s, token).value)
    ensures Verified(s, token).Some? ==>
              && Opened(s, token).Some? && Parsed(Opened(s, token).value) == Verified(s, token)
              && s.isText(Opened(s, token).value)
              && COLON !in Verified(s, token).value.id
  {
    if Opened(s, token).Some? {
      var halves := SplitOnce(token, DOT).value;
      ArmorIsCanonical(halves.0);
      ArmorIsCanonical(halves.1);
    }
  }

  /** The payload, field by field: `g7:3:60:a:b` for the grant `g7` on slot 3 until second 60 of
      the user `a:b`; the token is its armor, a dot and the armor of its keyed hash. */
  lemma TokenLayout(s: Sealing)
    ensures var c := Claim([0x67, 0x37], [0x61, 0x3a, 0x62], 3, 60);
            && Payload(c) == [0x67, 0x37, 0x3a, 0x33, 0x3a, 0x36, 0x30, 0x3a, 0x61, 0x3a, 0x62]
            && Token(s, c) == Armored(Payload(c)) + [0x2e] + Armored(s.mac(Payload(c)))
  {
    assert Decimal.Print(60) == Decimal.Print(6) + [0x30];
  }

  /** A hash that does not match is refused, whatever the payload says. */
  lemma ForgedIsRefused(s: Sealing, payload: Bytes, sig: Bytes)
    ensures Verified(s, Armored(payload) + [0x2e] + Armored(sig)).Some? ==> sig == s.mac(payload)
  {
    ArmorFree(payload);
    SplitOnceAt(Armored(payload), Armored(sig), DOT);
    ArmorRoundTrip(payload);
    ArmorRoundTrip(sig);
  }
}
