/** The base32 codec of TOTP seeds (src/totp.rs): 32-bit accumulators proved
    against RFC 4648 section 6, without padding. */
module Base32 {
  import opened Basics
  import opened BitGroups

  const EQUALS: byte := 0x3d

  /** `A`-`Z` then `2`-`7`. */
  function Letter(v: nat): byte
    requires v < 32
  {
    if v < 26 then 0x41 + v else 0x32 + (v - 26)
  }

  function Position(c: byte): (r: Option<nat>)
    ensures r.Some? ==> r.value < 32 && Letter(r.value) == c
  {
    if 0x41 <= c <= 0x5a then Some(c - 0x41)
    else if 0x32 <= c <= 0x37 then Some(c - 0x32 + 26)
    else None
  }

  lemma PositionOfLetter(v: nat)
    requires v < 32
    ensures Position(Letter(v)) == Some(v)
  {
  }

  /** White space and padding signs, which decoding passes over. */
  predicate Skipped(c: byte)
  {
    c == 0x20 || c == 0x09 || c == 0x0a || c == 0x0c || c == 0x0d || c == EQUALS
  }

  function Upper(c: byte): byte
  {
    if 0x61 <= c <= 0x7a then c - 0x20 else c
  }

  // ---- specification -------------------------------------------------------

  function Letters(vals: seq<nat>): (text: Bytes)
    requires forall i :: 0 <= i < |vals| ==> vals[i] < 32
    ensures |text| == |vals|
    ensures forall i :: 0 <= i < |vals| ==> text[i] == Letter(vals[i])
  {
    seq(|vals|, i requires 0 <= i < |vals| => Letter(vals[i]))
  }

  function Encoded(data: Bytes): Bytes
  {
    assert Pow2(5) == 32;
    Letters(Groups(Ungrouped(data, 8), 5))
  }

  /** The values of the significant characters, unless one is foreign. */
  function Values(text: Bytes): (r: Option<seq<nat>>)
    ensures r.Some? ==> forall i :: 0 <= i < |r.value| ==> r.value[i] < 32
  {
    if text == [] then Some([])
    else
      var front, last := Values(text[..|text| - 1]), text[|text| - 1];
      if front.None? then None
      else if Skipped(last) then front
      else match Position(Upper(last))
        case None => None
        case Some(v) => Some(front.value + [v])
  }

  function Decoded(text: Bytes): Option<Bytes>
  {
    match Values(text)
    case None => None
    case Some(vals) => Some(WholeBytes(Ungrouped(vals, 5)))
  }

  // ---- machine words -------------------------------------------------------

  /** The low `n` bits of a word, as a number. */
  function Low(x: nat, n: nat): nat { Value(OfWidth(x, n)) }

  /** A left shift in a word of `w` bits; what leaves at the top is lost. */
  function Shl(x: nat, n: nat, w: nat): nat { Low(Shifted(x, n), w) }

  function Shr(x: nat, n: nat): nat
    decreases n
  {
    if n == 0 then x else Shr(x / 2, n - 1)
  }

  /** Shifting a value in appends its bits. */
  lemma {:induction false} ShiftedIn(x: nat, v: nat, n: nat, k: nat)
    requires v < Pow2(k)
    ensures OfWidth(Shifted(x, k) + v, n + k) == OfWidth(x, n) + OfWidth(v, k)
    decreases k
  {
    if k > 0 {
      assert (2 * Shifted(x, k - 1) + v) / 2 == Shifted(x, k - 1) + v / 2;
      assert (2 * Shifted(x, k - 1) + v) % 2 == v % 2;
      ShiftedIn(x, v / 2, n, k - 1);
      assert OfWidth(x, n) + (OfWidth(v / 2, k - 1) + [v % 2 == 1])
          == OfWidth(x, n) + OfWidth(v / 2, k - 1) + [v % 2 == 1];
    }
  }

  /** A narrower view is the end of a wider one. */
  lemma {:induction false} NarrowerIsTail(x: nat, n: nat, m: nat)
    requires n <= m
    ensures OfWidth(x, m)[m - n..] == OfWidth(x, n)
    decreases n
  {
    if n > 0 {
      NarrowerIsTail(x / 2, n - 1, m - 1);
      assert OfWidth(x, m)[m - n..] == OfWidth(x / 2, m - 1)[m - n..] + [x % 2 == 1];
    }
  }

  /** Truncation keeps every view it is wide enough for. */
  lemma TruncationKeeps(x: nat, n: nat, w: nat)
    requires n <= w
    ensures OfWidth(Low(x, w), n) == OfWidth(x, n)
  {
    OfWidthValue(OfWidth(x, w));
    NarrowerIsTail(x, n, w);
    NarrowerIsTail(Low(x, w), n, w);
  }

  /** Shifting right is looking at the bits further up. */
  lemma {:induction false} ShiftedOut(x: nat, r: nat, m: nat)
    ensures OfWidth(Shr(x, r), m) == OfWidth(x, m + r)[..m]
    decreases r
  {
    if r > 0 {
      ShiftedOut(x / 2, r - 1, m);
      assert OfWidth(x, m + r)[..m] == OfWidth(x / 2, m + r - 1)[..m];
    } else {
      assert OfWidth(x, m)[..m] == OfWidth(x, m);
    }
  }

  /** A left shift leaves the pending bits above as many zeros. */
  lemma ShlView(acc: nat, bits: nat, k: nat, w: nat)
    requires bits + k <= w
    ensures OfWidth(Shl(acc, k, w), bits + k) == OfWidth(acc, bits) + OfWidth(0, k)
  {
    TruncationKeeps(Shifted(acc, k), bits + k, w);
    ShiftedIn(acc, 0, bits, k);
  }

  /** Adding into the free low bits only changes those. */
  lemma {:induction false} LowBitsFilled(x: nat, v: nat, n: nat, k: nat)
    requires v < Pow2(k) && OfWidth(x, k) == OfWidth(0, k)
    ensures OfWidth(x + v, n + k) == OfWidth(x, n + k)[..n] + OfWidth(v, k)
    decreases k
  {
    if k > 0 {
      var a, b := OfWidth(x / 2, k - 1), OfWidth(0, k - 1);
      assert (a + [x % 2 == 1])[..k - 1] == a && (b + [false])[..k - 1] == b;
      assert (a + [x % 2 == 1])[k - 1] == (b + [false])[k - 1];
      assert x % 2 == 0 && (x + v) / 2 == x / 2 + v / 2 && (x + v) % 2 == v % 2;
      LowBitsFilled(x / 2, v / 2, n, k - 1);
      assert OfWidth(x, n + k)[..n] == OfWidth(x / 2, n + k - 1)[..n];
    } else {
      assert OfWidth(x, n)[..n] == OfWidth(x, n);
    }
  }

  /** `(acc << k) | v` appends the bits of `v` to the pending ones; the bits that
      fall off the top were emitted long ago. */
  lemma AppendedToPending(acc: nat, bits: nat, v: nat, k: nat, w: nat)
    requires bits + k <= w && v < Pow2(k)
    ensures OfWidth(Shl(acc, k, w) + v, bits + k) == OfWidth(acc, bits) + OfWidth(v, k)
  {
    ShlView(acc, bits, k, w);
    LowBitsFree(acc, k, w);
    LowBitsFilled(Shl(acc, k, w), v, bits, k);
    assert (OfWidth(acc, bits) + OfWidth(0, k))[..bits] == OfWidth(acc, bits);
  }

  lemma LowBitsFree(acc: nat, k: nat, w: nat)
    requires k <= w
    ensures OfWidth(Shl(acc, k, w), k) == OfWidth(0, k)
  {
    ShlView(acc, 0, k, w);
    assert OfWidth(acc, 0) + OfWidth(0, k) == OfWidth(0, k);
  }

  // ---- the codec -----------------------------------------------------------
  //
  // Widths are parameters of the lemmas and loops below: `w` for the word, `k` for
  // a letter and `n` for a byte; `EncodeBase32` and `DecodeBase32` fix them.

  /** What the encoder has emitted (`done`, as values), and what its accumulator
      still holds (`pending`). */
  ghost predicate Encoding(done: Bits, pending: Bits, vals: seq<nat>, acc: nat, k: nat)
    requires k >= 1
  {
    Aligned(|done|, k) && vals == Groups(done, k) && OfWidth(acc, |pending|) == pending
  }

  lemma Assoc<T>(a: seq<T>, b: seq<T>, c: seq<T>)
    ensures a + b + c == a + (b + c)
  {
  }

  /** The next byte joins the pending bits. */
  lemma EncodingReads(data: Bytes, i: nat, done: Bits, pending: Bits, acc: nat, n: nat, w: nat) returns (next: Bits)
    requires i < |data| && ByteWide(n) && |pending| + n <= w
    requires Ungrouped(data[..i], n) == done + pending && OfWidth(acc, |pending|) == pending
    ensures |next| == |pending| + n
    ensures Ungrouped(data[..i + 1], n) == done + next && OfWidth(Shl(acc, n, w) + data[i], |next|) == next
  {
    next := pending + OfWidth(data[i], n);
    NextByte(data, i, n);
    ByteFits(data[i], n);
    AppendedToPending(acc, |pending|, data[i], n, w);
    Assoc(done, pending, OfWidth(data[i], n));
  }

  lemma NextByte(data: Bytes, i: nat, n: nat)
    requires i < |data| && ByteWide(n)
    ensures Ungrouped(data[..i + 1], n) == Ungrouped(data[..i], n) + OfWidth(data[i], n)
  {
    assert data[..i + 1][..i] == data[..i];
  }

  lemma ByteFits(b: byte, n: nat)
    requires ByteWide(n)
    ensures b < Pow2(n)
  {
    assert Pow2(8) == 256;
  }

  /** The `k` bits on top of those that stay pending are the next group. */
  lemma EncodingShiftsOut(done: Bits, pending: Bits, vals: seq<nat>, acc: nat, k: nat)
    requires 1 <= k <= |pending| && Encoding(done, pending, vals, acc, k)
    ensures done + pending[..k] + pending[k..] == done + pending
    ensures Encoding(done + pending[..k], pending[k..], vals + [Low(Shr(acc, |pending| - k), k)], acc, k)
  {
    var top, rest := pending[..k], pending[k..];
    assert top + rest == pending;
    Assoc(done, top, rest);
    ShiftedOut(acc, |rest|, k);
    NarrowerIsTail(acc, |rest|, |pending|);
    GroupsConcat(done, top, k);
    OneGroup(top, k);
  }

  lemma OneGroup(group: Bits, k: nat)
    requires 0 < |group| <= k
    ensures Groups(group, k) == [Value(group + Zeros(k - |group|))]
    ensures |group| == k ==> Groups(group, k) == [Value(group)]
  {
    if |group| == k {
      assert group[..k] == group && group[k..] == [] && group + Zeros(0) == group;
    }
  }

  /** The last group is shifted up over zeros. */
  lemma EncodingEnds(done: Bits, pending: Bits, vals: seq<nat>, acc: nat, k: nat, w: nat)
    requires 0 < |pending| < k <= w && Encoding(done, pending, vals, acc, k)
    ensures vals + [Low(Shl(acc, k - |pending|, w), k)] == Groups(done + pending, k)
  {
    var pad := k - |pending|;
    GroupsConcat(done, pending, k);
    OneGroup(pending, k);
    ShlView(acc, |pending|, pad, w);
    ZeroWidth(pad);
  }

  lemma {:induction false} ZeroWidth(n: nat)
    ensures OfWidth(0, n) == Zeros(n)
  {
    if n > 0 {
      ZeroWidth(n - 1);
      assert Zeros(n - 1) + [false] == Zeros(n);
    }
  }

  /** `out` spells `vals`. */
  predicate Spelled(out: Bytes, vals: seq<nat>)
  {
    && |out| == |vals|
    && forall i :: 0 <= i < |vals| ==> vals[i] < 32 && out[i] == Letter(vals[i])
  }

  lemma SpelledOn(out: Bytes, vals: seq<nat>, acc: nat, k: nat)
    requires Spelled(out, vals) && Pow2(k) == 32
    ensures Low(acc, k) < 32 && Spelled(out + [Letter(Low(acc, k))], vals + [Low(acc, k)])
  {
  }

  /** One letter out: both accounts of the output grow by it. */
  lemma LetterOut(done: Bits, pending: Bits, vals: seq<nat>, out: Bytes, acc: nat, k: nat)
    requires 1 <= k <= |pending| && Pow2(k) == 32
    requires Encoding(done, pending, vals, acc, k) && Spelled(out, vals)
    ensures done + pending[..k] + pending[k..] == done + pending
    ensures var v := Low(Shr(acc, |pending| - k), k);
            && v < 32
            && Encoding(done + pending[..k], pending[k..], vals + [v], acc, k)
            && Spelled(out + [Letter(v)], vals + [v])
  {
    EncodingShiftsOut(done, pending, vals, acc, k);
    SpelledOn(out, vals, Shr(acc, |pending| - k), k);
  }

  /** The last letter. */
  lemma LastLetterOut(done: Bits, pending: Bits, vals: seq<nat>, out: Bytes, acc: nat, k: nat, w: nat)
    requires 0 < |pending| < k <= w && Pow2(k) == 32
    requires Encoding(done, pending, vals, acc, k) && Spelled(out, vals)
    ensures var v := Low(Shl(acc, k - |pending|, w), k);
            v < 32 && vals + [v] == Groups(done + pending, k) && out + [Letter(v)] == Letters(vals + [v])
  {
    var v := Low(Shl(acc, k - |pending|, w), k);
    EncodingEnds(done, pending, vals, acc, k, w);
    SpelledOn(out, vals, Shl(acc, k - |pending|, w), k);
    SpelledOut(out + [Letter(v)], vals + [v]);
  }

  lemma SpelledOut(out: Bytes, vals: seq<nat>)
    requires Spelled(out, vals)
    ensures (forall i :: 0 <= i < |vals| ==> vals[i] < 32) && out == Letters(vals)
  {
  }

  method EncodeBase32(data: Bytes) returns (out: Bytes)
    ensures out == Encoded(data)
  {
    assert Pow2(5) == 32;
    ghost var vals;
    out, vals := EncodeInWords(data, 32, 5, 8);
  }

  /** The accumulator is never masked; any word that takes a byte on top of an
      unfinished letter will do. */
  method EncodeInWords(data: Bytes, w: nat, k: nat, n: nat) returns (out: Bytes, ghost vals: seq<nat>)
    requires k >= 1 && Pow2(k) == 32 && ByteWide(n) && w >= n + k
    ensures vals == Groups(Ungrouped(data, n), k)
    ensures out == Letters(vals)
  {
    out, vals := [], [];
    var acc: nat, bits: nat := 0, 0;
    ghost var done: Bits, pending: Bits := [], [];
    for i := 0 to |data|
      invariant bits == |pending| < k
      invariant Ungrouped(data[..i], n) == done + pending
      invariant Encoding(done, pending, vals, acc, k) && Spelled(out, vals)
    {
      pending := EncodingReads(data, i, done, pending, acc, n, w);
      acc := Shl(acc, n, w) + data[i];
      bits, out, done, pending, vals := EmitLetters(acc, bits + n, out, k, done, pending, vals);
    }
    assert data[..|data|] == data;
    if bits > 0 {
      LastLetterOut(done, pending, vals, out, acc, k, w);
      out, vals := out + [Letter(Low(Shl(acc, k - bits, w), k))], vals + [Low(Shl(acc, k - bits, w), k)];
    } else {
      assert done + pending == done;
      SpelledOut(out, vals);
    }
  }

  /** The inner loop: letters go out while there are bits for one. */
  method EmitLetters(acc: nat, has: nat, sofar: Bytes, k: nat,
                     ghost was: Bits, ghost held: Bits, ghost before: seq<nat>)
    returns (bits: nat, out: Bytes, ghost done: Bits, ghost pending: Bits, ghost vals: seq<nat>)
    requires k >= 1 && Pow2(k) == 32 && has == |held|
    requires Encoding(was, held, before, acc, k) && Spelled(sofar, before)
    ensures bits == |pending| < k && done + pending == was + held
    ensures Encoding(done, pending, vals, acc, k) && Spelled(out, vals)
  {
    bits, out, done, pending, vals := has, sofar, was, held, before;
    while bits >= k
      invariant bits == |pending| && done + pending == was + held
      invariant Encoding(done, pending, vals, acc, k) && Spelled(out, vals)
    {
      LetterOut(done, pending, vals, out, acc, k);
      done, pending := done + pending[..k], pending[k..];
      bits := bits - k;
      out, vals := out + [Letter(Low(Shr(acc, bits), k))], vals + [Low(Shr(acc, bits), k)];
    }
  }

  /** The decoder keeps exactly its pending bits. */
  ghost predicate Decoding(done: Bits, pending: Bits, out: Bytes, acc: nat)
  {
    |done| % 8 == 0 && out == WholeBytes(done) && acc == Value(pending)
  }

  /** The word after shifting `k` bits in is exactly the pending bits. */
  lemma WordIsPending(pending: Bits, v: nat, k: nat, w: nat)
    requires v < Pow2(k) && |pending| + k <= w
    ensures Shl(Value(pending), k, w) + v == Value(pending + OfWidth(v, k))
  {
    ValueOfWidth(v, k);
    ValueConcat(pending, OfWidth(v, k));
    ShiftStays(Value(pending), |pending|, k, w);
  }

  /** A shift that stays inside the word loses nothing. */
  lemma ShiftStays(x: nat, bits: nat, k: nat, w: nat)
    requires x < Pow2(bits) && bits + k <= w
    ensures Shl(x, k, w) == Shifted(x, k)
  {
    ShiftedBelow(x, bits, k);
    PowersGrow(bits + k, w);
    ValueOfWidth(Shifted(x, k), w);
  }

  lemma {:induction false} ShiftedBelow(x: nat, bits: nat, k: nat)
    requires x < Pow2(bits)
    ensures Shifted(x, k) < Pow2(bits + k)
    decreases k
  {
    if k > 0 { ShiftedBelow(x, bits, k - 1); }
  }

  lemma {:induction false} PowersGrow(a: nat, b: nat)
    requires a <= b
    ensures Pow2(a) <= Pow2(b)
    decreases b - a
  {
    if a < b { PowersGrow(a, b - 1); }
  }

  lemma ByteDone(done: Bits, top: Bits, out: Bytes)
    requires |done| % 8 == 0 && out == WholeBytes(done) && |top| == 8
    ensures |done + top| % 8 == 0 && Value(top) < 256 && WholeBytes(done + top) == out + [Value(top)]
  {
    EightBits(top);
    WholeBytesConcat(done, top);
  }

  /** The byte that the pending bits complete. */
  lemma DecodingEmits(done: Bits, pending: Bits, out: Bytes, acc: nat, n: nat)
    requires Decoding(done, pending, out, acc) && ByteWide(n) && |pending| >= n
    ensures Low(Shr(acc, |pending| - n), n) < 256
    ensures done + pending[..n] + pending[n..] == done + pending
    ensures Decoding(done + pending[..n], pending[n..], out + [Low(Shr(acc, |pending| - n), n)],
                     Low(acc, |pending| - n))
  {
    var top, rest := pending[..n], pending[n..];
    assert top + rest == pending;
    Assoc(done, top, rest);
    ByteOut(pending, |rest|, n);
    ByteDone(done, top, out);
  }

  /** Taking the byte off the top and masking the rest. */
  lemma ByteOut(next: Bits, rest: nat, n: nat)
    requires |next| == n + rest
    ensures Low(Shr(Value(next), rest), n) == Value(next[..n])
    ensures Low(Value(next), rest) == Value(next[n..])
  {
    OfWidthValue(next);
    ShiftedOut(Value(next), rest, n);
    NarrowerIsTail(Value(next), rest, n + rest);
  }

  lemma EightBits(bits: Bits)
    requires |bits| == 8
    ensures Value(bits) < 256 && WholeBytes(bits) == [Value(bits)]
  {
    assert Pow2(8) == 256;
    assert bits[..8] == bits && bits[8..] == [];
  }

  lemma {:induction false} ForeignIsFatal(text: Bytes, i: nat)
    requires i <= |text| && Values(text[..i]).None?
    ensures Values(text).None?
    decreases |text| - i
  {
    if i < |text| {
      assert text[..i + 1][..i] == text[..i];
      ForeignIsFatal(text, i + 1);
    } else {
      assert text[..i] == text;
    }
  }

  method DecodeBase32(text: Bytes) returns (r: Option<Bytes>)
    ensures r == Decoded(text)
  {
    assert Pow2(5) == 32;
    r := DecodeInWords(text, 32, 5, 8);
  }

  method DecodeInWords(text: Bytes, w: nat, k: nat, n: nat) returns (r: Option<Bytes>)
    requires 1 <= k <= n && Pow2(k) == 32 && ByteWide(n) && w >= n + k
    ensures r == match Values(text)
                 case None => None
                 case Some(vals) => Some(WholeBytes(Ungrouped(vals, k)))
  {
    var out: Bytes, acc: nat, bits: nat := [], 0, 0;
    ghost var vals: seq<nat>, done: Bits, pending: Bits := [], [], [];
    for i := 0 to |text|
      invariant Values(text[..i]) == Some(vals)
      invariant bits == |pending| < n
      invariant Ungrouped(vals, k) == done + pending
      invariant Decoding(done, pending, out, acc)
    {
      ValuesNext(text, i);
      if Skipped(text[i]) { continue; }
      var position := Position(Upper(text[i]));
      if position.None? {
        ForeignIsFatal(text, i + 1);
        return None;
      }
      var v := position.value;
      UngroupedNext(vals, v, k, done, pending);
      WordIsPending(pending, v, k, w);
      vals, pending := vals + [v], pending + OfWidth(v, k);
      acc := Shl(acc, k, w) + v;
      bits := bits + k;
      if bits >= n {
        DecodingEmits(done, pending, out, acc, n);
        done, pending := done + pending[..n], pending[n..];
        bits := bits - n;
        out := out + [Low(Shr(acc, bits), n)];
        acc := Low(acc, bits);
      }
    }
    assert text[..|text|] == text;
    LeftOverMakesNoByte(done, pending);
    return Some(out);
  }

  lemma UngroupedNext(vals: seq<nat>, v: nat, k: nat, done: Bits, pending: Bits)
    requires Ungrouped(vals, k) == done + pending
    ensures Ungrouped(vals + [v], k) == done + (pending + OfWidth(v, k))
  {
    UngroupedSnoc(vals, v, k);
    Assoc(done, pending, OfWidth(v, k));
  }

  lemma ValuesNext(text: Bytes, i: nat)
    requires i < |text| && Values(text[..i]).Some?
    ensures Values(text[..i + 1])
         == if Skipped(text[i]) then Values(text[..i])
            else match Position(Upper(text[i]))
              case None => None
              case Some(v) => Some(Values(text[..i]).value + [v])
  {
    assert text[..i + 1][..i] == text[..i];
  }

  lemma LeftOverMakesNoByte(done: Bits, pending: Bits)
    requires |done| % 8 == 0 && |pending| < 8
    ensures WholeBytes(done + pending) == WholeBytes(done)
  {
    WholeBytesConcat(done, pending);
  }

  // ---- laws ----------------------------------------------------------------

  lemma {:induction false} ValuesOfLetters(vals: seq<nat>)
    requires forall i :: 0 <= i < |vals| ==> vals[i] < 32
    ensures Values(Letters(vals)) == Some(vals)
    decreases vals
  {
    if vals != [] {
      var front, last := vals[..|vals| - 1], vals[|vals| - 1];
      ValuesOfLetters(front);
      assert Letters(vals)[..|vals| - 1] == Letters(front);
      PositionOfLetter(last);
      assert Letters(vals)[|vals| - 1] == Letter(last);
      assert !Skipped(Letter(last)) && Upper(Letter(last)) == Letter(last);
      assert front + [last] == vals;
    }
  }

  /** Every byte string survives encoding and decoding. */
  lemma RoundTrip(data: Bytes)
    ensures Decoded(Encoded(data)) == Some(data)
  {
    assert Pow2(5) == 32;
    ValuesOfLetters(Groups(Ungrouped(data, 8), 5));
    RegroupRoundTrip(data, 8, 5);
  }

  lemma {:induction false} ValuesSkip(a: Bytes, c: byte, b: Bytes)
    requires Skipped(c)
    ensures Values(a + [c] + b) == Values(a + b)
    decreases b
  {
    if b == [] {
      assert a + [c] + b == a + [c] && a + b == a;
      assert (a + [c])[..|a|] == a;
    } else {
      var front, last := b[..|b| - 1], b[|b| - 1];
      assert (a + [c] + b)[..|a + [c] + b| - 1] == a + [c] + front;
      assert (a + b)[..|a + b| - 1] == a + front;
      ValuesSkip(a, c, front);
    }
  }

  /** A space, tab, line feed, form feed, carriage return or equals sign anywhere changes nothing. */
  lemma DecodingIgnoresFiller(a: Bytes, c: byte, b: Bytes)
    requires c in {0x20, 0x09, 0x0a, 0x0c, 0x0d, 0x3d}
    ensures Decoded(a + [c] + b) == Decoded(a + b)
  {
    ValuesSkip(a, c, b);
  }

  /** Neither does the case of the letters, one by one. */
  lemma {:induction false} DecodingIgnoresCase(a: Bytes, b: Bytes)
    requires |a| == |b|
    requires forall i :: 0 <= i < |a| ==>
               a[i] == b[i] || (0x61 <= a[i] <= 0x7a && b[i] == a[i] - 0x20)
               || (0x61 <= b[i] <= 0x7a && a[i] == b[i] - 0x20)
    ensures Values(a) == Values(b) && Decoded(a) == Decoded(b)
    decreases |a|
  {
    if a == [] {
      assert a == b;
    } else {
      var n := |a| - 1;
      DecodingIgnoresCase(a[..n], b[..n]);
      ValuesIgnoreCase(a, b, n);
    }
  }

  lemma ValuesIgnoreCase(a: Bytes, b: Bytes, n: nat)
    requires |a| == |b| == n + 1 && Values(a[..n]) == Values(b[..n])
    requires a[n] == b[n] || (0x61 <= a[n] <= 0x7a && b[n] == a[n] - 0x20)
             || (0x61 <= b[n] <= 0x7a && a[n] == b[n] - 0x20)
    ensures Values(a) == Values(b)
  {
    assert Upper(a[n]) == Upper(b[n]) && Skipped(a[n]) == Skipped(b[n]);
  }

  /** Any other character is fatal, wherever it stands. */
  lemma ForeignIsRefused(text: Bytes, i: nat)
    requires i < |text|
    requires !(0x41 <= text[i] <= 0x5a || 0x61 <= text[i] <= 0x7a || 0x32 <= text[i] <= 0x37)
    requires text[i] !in {0x20, 0x09, 0x0a, 0x0c, 0x0d, 0x3d}
    ensures Decoded(text) == None
  {
    assert text[..i + 1][..i] == text[..i];
    ForeignIsFatal(text, i + 1);
  }

  /** The alphabet of RFC 4648 section 6, `A` to `Z` and `2` to `7`. */
  const ALPHABET: Bytes := [
    0x41, 0x42, 0x43, 0x44, 0x45, 0x46, 0x47, 0x48, 0x49, 0x4a, 0x4b, 0x4c, 0x4d, 0x4e, 0x4f, 0x50,
    0x51, 0x52, 0x53, 0x54, 0x55, 0x56, 0x57, 0x58, 0x59, 0x5a, 0x32, 0x33, 0x34, 0x35, 0x36, 0x37]

  lemma LetterIsOfTheAlphabet(v: nat)
    requires v < 32
    ensures Letter(v) == ALPHABET[v]
  {
  }

  /** What is spelled is a number: the letters are, in order, the base-32 digits of the number the
      bytes are the base-256 digits of, moved up by the few zero bits that fill the last letter. */
  lemma SpellsTheNumber(data: Bytes) returns (vals: seq<nat>, pad: nat)
    ensures (forall i :: 0 <= i < |vals| ==> vals[i] < 32) && Encoded(data) == Letters(vals)
    ensures pad < 5 && |vals| * 5 == |data| * 8 + pad
    ensures Number(vals, 32) == Number(data, 256) * Pow2(pad)
  {
    assert Pow2(5) == 32;
    vals := Groups(Ungrouped(data, 8), 5);
    pad := RegroupKeepsNumber(data, 8, 5, 32);
  }

  /** One byte is two letters: its high five bits, then its low three and two zeros. */
  lemma OneByteSpells(b: byte)
    ensures Encoded([b]) == [ALPHABET[b / 8], ALPHABET[b % 8 * 4]]
  {
    var vals, pad := SpellsTheNumber([b]);
    assert pad == 2 && |vals| == 2;
    assert vals == [vals[0], vals[1]];
    TwoDigits(b, vals[0], vals[1]);
    TwoLetters(vals[0], vals[1]);
  }

  lemma TwoDigits(b: byte, x: nat, y: nat)
    requires x < 32 && y < 32 && Number([x, y], 32) == Number([b], 256) * Pow2(2)
    ensures x == b / 8 && y == b % 8 * 4
  {
    NumberSnoc([], b, 256);
    NumberSnoc([], x, 32);
    NumberSnoc([x], y, 32);
    assert [] + [b] == [b] && [] + [x] == [x] && [x] + [y] == [x, y];
    assert Pow2(1) == 2;
  }

  lemma TwoLetters(x: nat, y: nat)
    requires x < 32 && y < 32
    ensures Letters([x, y]) == [ALPHABET[x], ALPHABET[y]]
  {
    LetterIsOfTheAlphabet(x);
    LetterIsOfTheAlphabet(y);
  }
}
