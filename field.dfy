/**
 * The field cursor of Util/Field.swift: a single-pass reader that takes
 * fixed-width integers off the front of a characteristic value, one after the
 * other, little-endian, and remembers how far it has read.
 */
module Field {
  import opened Bytes

  /** The fixed-width integer types `get<T>()` can be instantiated with. */
  datatype IntType = UInt8 | Int8 | UInt16 | Int16 | UInt32 | Int32 | UInt64 | Int64

  /** `T.bitWidth`. */
  function BitWidth(t: IntType): nat {
    match t
    case UInt8 | Int8 => 8
    case UInt16 | Int16 => 16
    case UInt32 | Int32 => 32
    case UInt64 | Int64 => 64
  }

  predicate IsSigned(t: IntType) {
    t.Int8? || t.Int16? || t.Int32? || t.Int64?
  }

  /** `byteWidth`: the bit width divided by the bit width of one octet. */
  function ByteWidth(t: IntType): (w: nat)
    ensures w * 8 == BitWidth(t)
    ensures w == 1 || w == 2 || w == 4 || w == 8
  {
    BitWidth(t) / 8
  }

  /** `T.min`: two's complement for the signed types. */
  function MinValue(t: IntType): int {
    if IsSigned(t) then -(Pow256(ByteWidth(t)) / 2) else 0
  }

  /** `T.max`. */
  function MaxValue(t: IntType): int {
    if IsSigned(t) then Pow256(ByteWidth(t)) / 2 - 1 else Pow256(ByteWidth(t)) - 1
  }

  predicate InRange(t: IntType, v: int) {
    MinValue(t) <= v <= MaxValue(t)
  }

  /** The unsigned value of `bs` read least significant byte first. */
  function LittleEndian(bs: seq<byte>): (n: nat)
    ensures n < Pow256(|bs|)
  {
    if bs == [] then 0 else bs[0] as nat + 256 * LittleEndian(bs[1..])
  }

  /** The k bytes that encode `n` least significant byte first. */
  function LittleEndianBytes(n: nat, k: nat): (bs: seq<byte>)
    requires n < Pow256(k)
    ensures |bs| == k
  {
    if k == 0 then [] else [(n % 256) as byte] + LittleEndianBytes(n / 256, k - 1)
  }

  lemma {:induction false} LittleEndianOfBytes(n: nat, k: nat)
    requires n < Pow256(k)
    ensures LittleEndian(LittleEndianBytes(n, k)) == n
  {
    if k > 0 {
      LittleEndianOfBytes(n / 256, k - 1);
    }
  }

  lemma {:induction false} BytesOfLittleEndian(bs: seq<byte>)
    ensures LittleEndianBytes(LittleEndian(bs), |bs|) == bs
  {
    if bs != [] {
      var rest := LittleEndian(bs[1..]);
      assert (bs[0] as nat + 256 * rest) % 256 == bs[0] as nat;
      assert (bs[0] as nat + 256 * rest) / 256 == rest;
      BytesOfLittleEndian(bs[1..]);
    }
  }

  /**
   * The value `bytes.load(as: T.self)` gives for the `T.byteWidth` bytes `bs` on
   * a little-endian host: the little-endian unsigned value, reinterpreted as
   * two's complement when `T` is signed.
   */
  function FieldValue(t: IntType, bs: seq<byte>): (v: int)
    requires |bs| == ByteWidth(t)
    ensures InRange(t, v)
  {
    var u := LittleEndian(bs);
    var p := Pow256(|bs|);
    assert p == 256 * Pow256(|bs| - 1);
    if IsSigned(t) && u >= p / 2 then u - p else u
  }

  /** The bytes a `T` with value `v` occupies on a little-endian host. */
  function EncodeField(t: IntType, v: int): (bs: seq<byte>)
    requires InRange(t, v)
    ensures |bs| == ByteWidth(t)
  {
    var p := Pow256(ByteWidth(t));
    LittleEndianBytes(if v < 0 then v + p else v, ByteWidth(t))
  }

  lemma FieldValueOfEncode(t: IntType, v: int)
    requires InRange(t, v)
    ensures FieldValue(t, EncodeField(t, v)) == v
  {
    var p := Pow256(ByteWidth(t));
    assert p == 256 * Pow256(ByteWidth(t) - 1);
    LittleEndianOfBytes(if v < 0 then v + p else v, ByteWidth(t));
  }

  lemma EncodeOfFieldValue(t: IntType, bs: seq<byte>)
    requires |bs| == ByteWidth(t)
    ensures EncodeField(t, FieldValue(t, bs)) == bs
  {
    BytesOfLittleEndian(bs);
  }

  /** The number of bytes a sequence of reads of the types `ts` consumes. */
  function TotalWidth(ts: seq<IntType>): nat {
    if ts == [] then 0 else TotalWidth(ts[..|ts| - 1]) + ByteWidth(ts[|ts| - 1])
  }

  /**
   * The values that reads of the types `ts`, one after the other from the
   * start of `data`, return.
   */
  function DecodeFields(data: seq<byte>, ts: seq<IntType>): (vs: seq<int>)
    requires TotalWidth(ts) <= |data|
    ensures |vs| == |ts|
    ensures forall i :: 0 <= i < |ts| ==> InRange(ts[i], vs[i])
  {
    if ts == [] then []
    else
      var init, t := ts[..|ts| - 1], ts[|ts| - 1];
      var o := TotalWidth(init);
      DecodeFields(data, init) + [FieldValue(t, data[o..o + ByteWidth(t)])]
  }

  lemma {:induction false} TotalWidthOfPrefix(ts: seq<IntType>, i: nat, j: nat)
    requires i <= j <= |ts|
    ensures TotalWidth(ts[..i]) <= TotalWidth(ts[..j])
    decreases j
  {
    if i < j {
      assert ts[..j][..j - 1] == ts[..j - 1];
      TotalWidthOfPrefix(ts, i, j - 1);
    }
  }

  /**
   * Reads consume adjacent, non-overlapping byte ranges: the i-th value read is
   * the field in bytes [TotalWidth(ts[..i]), TotalWidth(ts[..i + 1])), which
   * lies within the bytes consumed altogether.
   */
  lemma {:induction false} DecodeFieldsAt(data: seq<byte>, ts: seq<IntType>, i: nat)
    requires TotalWidth(ts) <= |data|
    requires i < |ts|
    ensures TotalWidth(ts[..i + 1]) == TotalWidth(ts[..i]) + ByteWidth(ts[i]) <= TotalWidth(ts)
    ensures DecodeFields(data, ts)[i] ==
              FieldValue(ts[i], data[TotalWidth(ts[..i])..TotalWidth(ts[..i + 1])])
    decreases |ts|
  {
    assert ts[..i + 1][..i] == ts[..i];
    TotalWidthOfPrefix(ts, i + 1, |ts|);
    assert ts[..|ts|] == ts;
    var init := ts[..|ts| - 1];
    if i < |ts| - 1 {
      assert init[..i] == ts[..i] && init[..i + 1] == ts[..i + 1] && init[i] == ts[i];
      DecodeFieldsAt(data, init, i);
    } else {
      assert init == ts[..i];
    }
  }

  /** `struct Fields`: the cursor over one characteristic value. */
  class Fields {
    var flags: int
    var data: seq<byte>
    var offset: nat
    /** The types read so far, the flags field first. */
    ghost var Consumed: seq<IntType>
    /** The values those reads returned. */
    ghost var Values: seq<int>

    /** The offset is the width of everything read, and each read returned its field. */
    ghost predicate Consistent()
      reads this
    {
      && offset == TotalWidth(Consumed) <= |data|
      && Values == DecodeFields(data, Consumed)
    }

    /** A cursor past construction: its first read was the 16-bit flags field. */
    ghost predicate Valid()
      reads this
    {
      Consistent() && |Consumed| >= 1 && Consumed[0] == UInt16 && flags == Values[0]
    }

    /** `init(_ data:)`: keep the buffer and read the flags with a first `get()`. */
    constructor (data: seq<byte>)
      requires |data| >= 2
      ensures Valid()
      ensures this.data == data && offset == 2 && Consumed == [UInt16]
      ensures flags == LittleEndian(data[..2])
    {
      this.data := data;
      flags := 0;
      offset := 0;
      Consumed := [];
      Values := [];
      new;
      flags := Get(UInt16);
    }

    /**
     * `get<T>()`: the `T` in the next `T.byteWidth` bytes; advances the offset
     * past them. The source has no bounds check (reading past the end traps),
     * so enough bytes must remain.
     */
    method Get(t: IntType) returns (v: int)
      requires Consistent()
      requires offset + ByteWidth(t) <= |data|
      modifies this`offset, this`Consumed, this`Values
      ensures Consistent() && (old(Valid()) ==> Valid())
      ensures offset == old(offset) + ByteWidth(t)
      ensures v == FieldValue(t, data[old(offset)..offset]) && InRange(t, v)
      ensures Consumed == old(Consumed) + [t] && Values == old(Values) + [v]
      ensures data == old(data) && flags == old(flags)
    {
      var w := ByteWidth(t);
      v := FieldValue(t, data[offset..offset + w]);
      ghost var ts := Consumed + [t];
      assert ts[..|ts| - 1] == Consumed && ts[|ts| - 1] == t;
      assert TotalWidth(ts) == offset + w;
      assert DecodeFields(data, ts) == Values + [v];
      offset := offset + w;
      Consumed := Consumed + [t];
      Values := Values + [v];
    }
  }
}
