/** Regrouping a byte string's bits, the common core of base32 and base64
    (RFC 4648 sections 5 and 6): big-endian bits in groups of `k`, the last group
    filled up with zeros. */
module BitGroups {
  import opened Basics

  type Bits = seq<bool>

  function Pow2(n: nat): (p: nat)
    ensures p >= 1
  {
    if n == 0 then 1 else 2 * Pow2(n - 1)
  }

  /** The number a bit string denotes, most significant bit first. */
  function Value(bits: Bits): (v: nat)
    ensures v < Pow2(|bits|)
  {
    if bits == [] then 0
    else 2 * Value(bits[..|bits| - 1]) + if bits[|bits| - 1] then 1 else 0
  }

  /** The low `k` bits of a number. */
  function OfWidth(v: nat, k: nat): (bits: Bits)
    ensures |bits| == k
    decreases k
  {
    if k == 0 then [] else OfWidth(v / 2, k - 1) + [v % 2 == 1]
  }

  function Zeros(n: nat): Bits
  {
    seq(n, i => false)
  }

  /** `x` shifted left by `n` bits. */
  function Shifted(x: nat, n: nat): nat
  {
    if n == 0 then x else 2 * Shifted(x, n - 1)
  }

  lemma {:induction false} ValueConcat(a: Bits, b: Bits)
    ensures Value(a + b) == Shifted(Value(a), |b|) + Value(b)
    decreases b
  {
    if b == [] {
      assert a + b == a;
    } else {
      var c := b[..|b| - 1];
      assert (a + b)[..|a + b| - 1] == a + c;
      ValueConcat(a, c);
    }
  }

  lemma {:induction false} ValueZeros(n: nat)
    ensures Value(Zeros(n)) == 0
  {
    if n > 0 {
      assert Zeros(n)[..n - 1] == Zeros(n - 1);
      ValueZeros(n - 1);
    }
  }

  lemma {:induction false} OfWidthValue(bits: Bits)
    ensures OfWidth(Value(bits), |bits|) == bits
    decreases bits
  {
    if bits != [] {
      var front := bits[..|bits| - 1];
      OfWidthValue(front);
      assert Value(bits) / 2 == Value(front);
      assert bits == front + [bits[|bits| - 1]];
    }
  }

  lemma {:induction false} ValueOfWidth(v: nat, k: nat)
    requires v < Pow2(k)
    ensures Value(OfWidth(v, k)) == v
    decreases k
  {
    if k > 0 {
      ValueOfWidth(v / 2, k - 1);
      var bits := OfWidth(v, k);
      assert bits[..k - 1] == OfWidth(v / 2, k - 1);
    }
  }

  /** Groups of `k` bits, the last one filled up with zeros. */
  function Groups(bits: Bits, k: nat): (vals: seq<nat>)
    requires k >= 1
    ensures forall i :: 0 <= i < |vals| ==> vals[i] < Pow2(k)
    decreases |bits|
  {
    if bits == [] then []
    else if |bits| < k then [Value(bits + Zeros(k - |bits|))]
    else [Value(bits[..k])] + Groups(bits[k..], k)
  }

  /** The bits of `k`-bit values; `Ungrouped(data, 8)` are the bits of a byte string. */
  function Ungrouped(vals: seq<nat>, k: nat): Bits
  {
    if vals == [] then [] else Ungrouped(vals[..|vals| - 1], k) + OfWidth(vals[|vals| - 1], k)
  }

  function Octet(bits: Bits): byte
    requires |bits| == 8
  {
    ValueFits(bits);
    Value(bits)
  }

  lemma ValueFits(bits: Bits)
    requires |bits| == 8
    ensures Value(bits) < 256
  {
    assert Pow2(8) == 256;
  }

  /** Whole bytes only; up to seven left-over bits are dropped. */
  function WholeBytes(bits: Bits): (data: Bytes)
    decreases |bits|
  {
    if |bits| < 8 then [] else [Octet(bits[..8])] + WholeBytes(bits[8..])
  }

  /** `n` is a whole number of groups. */
  predicate Aligned(n: nat, k: nat)
    requires k >= 1
    decreases n
  {
    n == 0 || (n >= k && Aligned(n - k, k))
  }

  lemma {:induction false} GroupsConcat(a: Bits, b: Bits, k: nat)
    requires k >= 1 && Aligned(|a|, k)
    ensures Groups(a + b, k) == Groups(a, k) + Groups(b, k)
    decreases |a|
  {
    if a == [] {
      assert a + b == b;
    } else {
      assert (a + b)[..k] == a[..k] && (a + b)[k..] == a[k..] + b;
      GroupsConcat(a[k..], b, k);
      assert [Value(a[..k])] + (Groups(a[k..], k) + Groups(b, k))
          == ([Value(a[..k])] + Groups(a[k..], k)) + Groups(b, k);
    }
  }

  lemma {:induction false} WholeBytesConcat(a: Bits, b: Bits)
    requires |a| % 8 == 0
    ensures WholeBytes(a + b) == WholeBytes(a) + WholeBytes(b)
    decreases |a|
  {
    if |a| < 8 {
      assert a + b == b;
    } else {
      assert (a + b)[..8] == a[..8] && (a + b)[8..] == a[8..] + b;
      WholeBytesConcat(a[8..], b);
    }
  }

  lemma UngroupedSnoc(vals: seq<nat>, v: nat, k: nat)
    ensures Ungrouped(vals + [v], k) == Ungrouped(vals, k) + OfWidth(v, k)
  {
    assert (vals + [v])[..|vals|] == vals;
  }

  lemma {:induction false} UngroupedConcat(a: seq<nat>, b: seq<nat>, k: nat)
    ensures Ungrouped(a + b, k) == Ungrouped(a, k) + Ungrouped(b, k)
    decreases b
  {
    if b == [] {
      assert a + b == a;
    } else {
      var c, v := b[..|b| - 1], b[|b| - 1];
      assert a + b == (a + c) + [v] && b == c + [v];
      UngroupedSnoc(a + c, v, k);
      UngroupedSnoc(c, v, k);
      UngroupedConcat(a, c, k);
    }
  }

  lemma UngroupedOne(v: nat, k: nat)
    ensures Ungrouped([v], k) == OfWidth(v, k)
  {
    assert [v][..0] == [];
  }

  /** Ungrouping gives the bits back, followed by less than one group of zeros. */
  lemma {:induction false} UngroupGroups(bits: Bits, k: nat) returns (pad: nat)
    requires k >= 1
    ensures pad < k && Ungrouped(Groups(bits, k), k) == bits + Zeros(pad)
    decreases |bits|
  {
    if bits == [] {
      pad := 0;
    } else if |bits| < k {
      pad := k - |bits|;
      LastGroup(bits + Zeros(pad), k);
    } else {
      pad := UngroupGroups(bits[k..], k);
      FirstGroup(bits[..k], bits[k..], bits, pad, k);
    }
  }

  lemma FirstGroup(top: Bits, rest: Bits, bits: Bits, pad: nat, k: nat)
    requires |top| == k >= 1 && bits == top + rest
    requires Ungrouped(Groups(rest, k), k) == rest + Zeros(pad)
    ensures Ungrouped([Value(top)] + Groups(rest, k), k) == bits + Zeros(pad)
  {
    LastGroup(top, k);
    UngroupedConcat([Value(top)], Groups(rest, k), k);
  }

  lemma LastGroup(bits: Bits, k: nat)
    requires |bits| == k
    ensures Ungrouped([Value(bits)], k) == bits
  {
    OfWidthValue(bits);
    UngroupedOne(Value(bits), k);
  }

  /** `n` is the width of a byte. The lemmas below take that width as a parameter and not as
      the number 8, at which the solver would unfold every recursion over bits. */
  predicate ByteWide(n: nat) { 7 < n < 9 }

  lemma WholeByte(b: byte, n: nat)
    requires ByteWide(n)
    ensures WholeBytes(OfWidth(b, n)) == [b]
  {
    var tail := OfWidth(b, n);
    assert Pow2(8) == 256;
    ValueOfWidth(b, n);
    assert tail[..8] == tail && tail[8..] == [];
  }

  lemma {:induction false} WholeBytesOfBits(data: Bytes, n: nat)
    requires ByteWide(n)
    ensures |Ungrouped(data, n)| % 8 == 0
    ensures WholeBytes(Ungrouped(data, n)) == data
    decreases data
  {
    if data != [] {
      var front, last := data[..|data| - 1], data[|data| - 1];
      var bits := Ungrouped(front, n);
      WholeBytesOfBits(front, n);
      OneByteLonger(|bits|, n);
      ByteAfter(front, bits, last, n);
      assert Ungrouped(data, n) == bits + OfWidth(last, n);
      assert front + [last] == data;
    }
  }

  lemma ByteAfter(front: Bytes, bits: Bits, last: byte, n: nat)
    requires ByteWide(n) && |bits| % 8 == 0 && WholeBytes(bits) == front
    ensures WholeBytes(bits + OfWidth(last, n)) == front + [last]
  {
    WholeByte(last, n);
    WholeBytesConcat(bits, OfWidth(last, n));
  }

  /** Grouping loses nothing as long as a group is at most a byte wide. */
  lemma RegroupRoundTrip(data: Bytes, n: nat, k: nat)
    requires 1 <= k <= n && ByteWide(n)
    ensures WholeBytes(Ungrouped(Groups(Ungrouped(data, n), k), k)) == data
  {
    var pad := UngroupGroups(Ungrouped(data, n), k);
    WholeBytesOfBits(data, n);
    WholeBytesConcat(Ungrouped(data, n), Zeros(pad));
  }

  /** A bit string is the bits of its whole bytes, then less than one byte. */
  lemma {:induction false} BitsOfWholeBytes(bits: Bits, n: nat) returns (data: Bytes, rest: Bits)
    requires ByteWide(n)
    ensures data == WholeBytes(bits)
    ensures |rest| == |bits| % 8 && bits == Ungrouped(data, n) + rest
    decreases |bits|
  {
    if |bits| < 8 {
      data, rest := [], bits;
    } else {
      var top, tail := bits[..n], bits[n..];
      data, rest := BitsOfWholeBytes(tail, n);
      OneByteLonger(|tail|, n);
      NextWholeByte(top, tail, data, rest, n);
      assert bits == top + tail;
      data := [Octet(top)] + data;
    }
  }

  lemma NextWholeByte(top: Bits, tail: Bits, data: Bytes, rest: Bits, n: nat)
    requires |top| == n && ByteWide(n) && data == WholeBytes(tail) && tail == Ungrouped(data, n) + rest
    ensures [Octet(top)] + data == WholeBytes(top + tail)
    ensures top + tail == Ungrouped([Octet(top)] + data, n) + rest
  {
    WholeBytesFirst(top, tail);
    FirstByte(top, tail, data, rest, n);
  }

  lemma OneByteLonger(length: nat, n: nat)
    requires ByteWide(n)
    ensures (length + n) % 8 == length % 8
  {
  }

  lemma WholeBytesFirst(top: Bits, tail: Bits)
    requires |top| == 8
    ensures Value(top) < 256 && WholeBytes(top + tail) == [Value(top)] + WholeBytes(tail)
  {
    ValueFits(top);
    assert (top + tail)[..8] == top && (top + tail)[8..] == tail;
  }

  lemma FirstByte(top: Bits, tail: Bits, vals: seq<nat>, rest: Bits, n: nat)
    requires |top| == n && tail == Ungrouped(vals, n) + rest
    ensures top + tail == Ungrouped([Value(top)] + vals, n) + rest
  {
    LastGroup(top, n);
    UngroupedConcat([Value(top)], vals, n);
    assert top + (Ungrouped(vals, n) + rest) == top + Ungrouped(vals, n) + rest;
  }

  /** Grouping undoes ungrouping, whether or not the final zeros are there. */
  lemma {:induction false} GroupsUngrouped(bits: Bits, pad: nat, vals: seq<nat>, k: nat)
    requires pad < k && Ungrouped(vals, k) == bits + Zeros(pad)
    requires forall i :: 0 <= i < |vals| ==> vals[i] < Pow2(k)
    ensures Groups(bits, k) == vals
    decreases |vals|
  {
    if vals != [] {
      HeadGroup(bits, pad, vals, k);
      if |bits| >= k { GroupsUngrouped(bits[k..], pad, vals[1..], k); }
      assert vals == [vals[0]] + vals[1..];
    }
  }

  /** The first group is the first value, filled up with zeros if it is the last. */
  lemma HeadGroup(bits: Bits, pad: nat, vals: seq<nat>, k: nat)
    requires pad < k && Ungrouped(vals, k) == bits + Zeros(pad)
    requires vals != [] && vals[0] < Pow2(k)
    ensures bits != []
    ensures |bits| < k ==> vals[1..] == [] && Value(bits + Zeros(k - |bits|)) == vals[0]
    ensures |bits| >= k ==> Value(bits[..k]) == vals[0] && Ungrouped(vals[1..], k) == bits[k..] + Zeros(pad)
  {
    FirstValue(vals, k);
    HeadBits(bits, pad, OfWidth(vals[0], k), Ungrouped(vals[1..], k), k);
    NoMoreGroups(vals[1..], k);
  }

  lemma FirstValue(vals: seq<nat>, k: nat)
    requires vals != [] && vals[0] < Pow2(k)
    ensures Ungrouped(vals, k) == OfWidth(vals[0], k) + Ungrouped(vals[1..], k)
    ensures |OfWidth(vals[0], k)| == k && Value(OfWidth(vals[0], k)) == vals[0]
    ensures Ungrouped(vals[1..], k) == [] || |Ungrouped(vals[1..], k)| >= k
  {
    assert vals == [vals[0]] + vals[1..];
    UngroupedConcat([vals[0]], vals[1..], k);
    UngroupedOne(vals[0], k);
    ValueOfWidth(vals[0], k);
    NoMoreGroups(vals[1..], k);
  }

  lemma HeadBits(bits: Bits, pad: nat, a: Bits, b: Bits, k: nat)
    requires pad < k && |a| == k && a + b == bits + Zeros(pad) && (b == [] || |b| >= k)
    ensures bits != []
    ensures |bits| < k ==> b == [] && bits + Zeros(k - |bits|) == a
    ensures |bits| >= k ==> bits[..k] == a && b == bits[k..] + Zeros(pad)
  {
    assert |a + b| == |bits| + pad;
    SplitBits(a, b, bits, Zeros(pad));
    assert b == [] ==> a + b == a;
  }

  lemma SplitBits(a: Bits, b: Bits, bits: Bits, tail: Bits)
    requires a + b == bits + tail
    ensures |a| <= |bits| ==> bits[..|a|] == a && b == bits[|a|..] + tail
  {
    if |a| <= |bits| {
      DropFirst(bits, tail, |a|);
      DropFirst(a, b, |a|);
      assert a[..|a|] == a && a[|a|..] + b == b;
    }
  }

  lemma DropFirst(bits: Bits, tail: Bits, k: nat)
    requires k <= |bits|
    ensures (bits + tail)[..k] == bits[..k] && (bits + tail)[k..] == bits[k..] + tail
  {
  }

  lemma NoMoreGroups(vals: seq<nat>, k: nat)
    ensures vals == [] || |Ungrouped(vals, k)| >= k
  {
  }

  // ---- the number that is regrouped -----------------------------------------

  /** The number these digits denote, most significant first. */
  function Number(digits: seq<nat>, base: nat): nat
  {
    if digits == [] then 0 else Number(digits[..|digits| - 1], base) * base + digits[|digits| - 1]
  }

  lemma NumberSnoc(digits: seq<nat>, d: nat, base: nat)
    ensures Number(digits + [d], base) == Number(digits, base) * base + d
  {
    assert (digits + [d])[..|digits|] == digits;
  }

  lemma {:induction false} ShiftedIsTimes(x: nat, n: nat)
    ensures Shifted(x, n) == x * Pow2(n)
  {
    if n > 0 {
      ShiftedIsTimes(x, n - 1);
      assert 2 * (x * Pow2(n - 1)) == x * (2 * Pow2(n - 1));
    }
  }

  lemma {:induction false} UngroupedLength(vals: seq<nat>, k: nat)
    ensures |Ungrouped(vals, k)| == |vals| * k
    decreases vals
  {
    if vals != [] {
      UngroupedLength(vals[..|vals| - 1], k);
      OneMore(|vals| - 1, k);
    }
  }

  lemma OneMore(n: nat, k: nat)
    ensures (n + 1) * k == n * k + k
  {
  }

  /** The bits of digits denote the number the digits denote. */
  lemma {:induction false} BitsOfNumber(vals: seq<nat>, k: nat, base: nat)
    requires base == Pow2(k) && forall i :: 0 <= i < |vals| ==> vals[i] < base
    ensures Value(Ungrouped(vals, k)) == Number(vals, base)
    decreases vals
  {
    if vals != [] {
      var front, last := vals[..|vals| - 1], vals[|vals| - 1];
      BitsOfNumber(front, k, base);
      ValueConcat(Ungrouped(front, k), OfWidth(last, k));
      ShiftedIsTimes(Value(Ungrouped(front, k)), k);
      ValueOfWidth(last, k);
    }
  }

  /** Regrouping keeps the number, but for the zero bits at the end. */
  lemma RegroupKeepsNumber(data: Bytes, n: nat, k: nat, base: nat) returns (pad: nat)
    requires ByteWide(n) && k >= 1 && base == Pow2(k)
    ensures var vals := Groups(Ungrouped(data, n), k);
            && pad < k && |vals| * k == |data| * n + pad
            && Number(vals, base) == Number(data, 256) * Pow2(pad)
  {
    var bits := Ungrouped(data, n);
    var vals := Groups(bits, k);
    pad := UngroupGroups(bits, k);
    ByteHasAllBits(n);
    UngroupedLength(data, n);
    UngroupedLength(vals, k);
    BitsOfNumber(data, n, 256);
    BitsOfNumber(vals, k, base);
    ValueConcat(bits, Zeros(pad));
    ValueZeros(pad);
    ShiftedIsTimes(Value(bits), pad);
  }

  lemma ByteHasAllBits(n: nat)
    requires ByteWide(n)
    ensures Pow2(n) == 256
  {
    assert Pow2(8) == 256;
  }
}
