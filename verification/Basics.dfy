/** Vocabulary shared by every component of the model. */
module Basics {
  datatype Option<+T> = None | Some(value: T)

  /** One octet. Strings of the source are modelled as their UTF-8 bytes. */
  type byte = b: int | 0 <= b < 256

  type Bytes = seq<byte>

  function Min(a: int, b: int): int { if a <= b then a else b }

  function Max(a: int, b: int): int { if a <= b then b else a }

  /** `u64::saturating_add`. */
  const U64_MAX: nat := 0xFFFF_FFFF_FFFF_FFFF

  function SatAdd(a: nat, b: nat): nat { Min(a + b, U64_MAX) }

  /** `saturating_sub` on unsigned integers. */
  function SatSub(a: nat, b: nat): nat { if b <= a then a - b else 0 }

  /** The concatenation of a sequence of chunks. */
  function Flatten(chunks: seq<Bytes>): Bytes
  {
    if chunks == [] then [] else chunks[0] + Flatten(chunks[1..])
  }

  lemma {:induction false} FlattenConcat(a: seq<Bytes>, b: seq<Bytes>)
    ensures Flatten(a + b) == Flatten(a) + Flatten(b)
  {
    if a == [] {
      assert a + b == b;
    } else {
      assert (a + b)[1..] == a[1..] + b;
      FlattenConcat(a[1..], b);
      assert a[0] + (Flatten(a[1..]) + Flatten(b)) == (a[0] + Flatten(a[1..])) + Flatten(b);
    }
  }

  lemma FlattenOne(c: Bytes)
    ensures Flatten([c]) == c
  {
    assert [c][1..] == [];
    assert c + [] == c;
  }

  lemma FlattenSnoc(a: seq<Bytes>, c: Bytes)
    ensures Flatten(a + [c]) == Flatten(a) + c
  {
    FlattenConcat(a, [c]);
    FlattenOne(c);
  }

  /** Split a byte string on a separator, as `slice::split` does: always at
      least one field, and an empty field between adjacent separators. */
  function Split(s: Bytes, sep: byte): (fields: seq<Bytes>)
    ensures |fields| >= 1
  {
    if s == [] then [[]]
    else
      var rest := Split(s[1..], sep);
      if s[0] == sep then [[]] + rest
      else [[s[0]] + rest[0]] + rest[1..]
  }

  /** A suffix free of separators after a separator is exactly the last field. */
  lemma {:induction false} SplitSnoc(a: Bytes, b: Bytes, sep: byte)
    requires sep !in b
    ensures Split(a + [sep] + b, sep) == Split(a, sep) + [b]
  {
    if a == [] {
      assert ([sep] + b)[1..] == b;
      SplitFree(b, sep);
      assert a + [sep] + b == [sep] + b;
    } else {
      assert (a + [sep] + b)[1..] == a[1..] + [sep] + b;
      assert (a + [sep] + b)[0] == a[0];
      SplitSnoc(a[1..], b, sep);
    }
  }

  /** A string without separators is a single field. */
  lemma {:induction false} SplitFree(b: Bytes, sep: byte)
    requires sep !in b
    ensures Split(b, sep) == [b]
  {
    if b == [] {
    } else {
      SplitFree(b[1..], sep);
      assert [b[0]] + b[1..] == b;
    }
  }

  lemma {:induction false} SubsetSize<T>(a: set<T>, b: set<T>)
    requires a <= b
    ensures |a| <= |b|
    decreases a
  {
    if a != {} {
      var x :| x in a;
      SubsetSize(a - {x}, b - {x});
    }
  }
}
