/**
 * The reading side of BinaryReader that Mesh::decodeTriangleIndexBytes uses.
 * BinaryReader is not part of this model; its varuint decoding is ASSUMED to be
 * unsigned LEB128 (seven value bits per byte, least significant group first, the
 * high bit set on every byte but the last), and a failed read (the span ends inside
 * a varuint, or the value does not fit the requested width) is assumed to put the
 * reader into its overflow state: the value read is 0 and the reader has reached its end.
 */
module BinaryReading {
  import opened Wrappers
  import opened Math

  const MaxUint16: nat := 0xFFFF

  /** One unsigned LEB128 varuint starting at `pos`: its value and the position just after it. */
  function ReadVarUint(span: seq<byte>, pos: nat): (r: Option<(nat, nat)>)
    ensures r.Some? ==> pos < r.value.1 <= |span|
    decreases |span| - pos
  {
    if pos >= |span| then None
    else if span[pos] < 0x80 then Some((span[pos], pos + 1))
    else
      match ReadVarUint(span, pos + 1)
      case None => None
      case Some((high, next)) => Some((span[pos] - 0x80 + 0x80 * high, next))
  }

  /**
   * A varuint ends at the first byte without the continuation bit; the read fails
   * exactly when every remaining byte has that bit set.
   */
  lemma {:induction false} ReadVarUintExtent(span: seq<byte>, pos: nat)
    ensures ReadVarUint(span, pos).Some? ==>
              var next := ReadVarUint(span, pos).value.1;
              span[next - 1] < 0x80 && forall i :: pos <= i < next - 1 ==> span[i] >= 0x80
    ensures ReadVarUint(span, pos).None? <==> forall i :: pos <= i < |span| ==> span[i] >= 0x80
    decreases |span| - pos
  {
    if pos < |span| && span[pos] >= 0x80 {
      ReadVarUintExtent(span, pos + 1);
    }
  }

  /**
   * readVarUintAs<uint16_t>: the value and the reader's next position. A read always
   * makes progress, and a failed read yields 0 and moves the reader to the end.
   */
  function ReadVarUint16(span: seq<byte>, pos: nat): (r: (uint16, nat))
    requires pos < |span|
    ensures pos < r.1 <= |span|
    ensures ReadVarUint(span, pos).Some? && ReadVarUint(span, pos).value.0 <= MaxUint16
            ==> r == (ReadVarUint(span, pos).value.0, ReadVarUint(span, pos).value.1)
    ensures ReadVarUint(span, pos).None? || ReadVarUint(span, pos).value.0 > MaxUint16
            ==> r == (0, |span|)
  {
    match ReadVarUint(span, pos)
    case None => (0, |span|)
    case Some((value, next)) => if value <= MaxUint16 then (value, next) else (0, |span|)
  }

  /**
   * The indices read from `pos` on by reading 16-bit varuints until the reader reaches
   * the end of the span. Every read consumes at least one byte, so there are never more indices than bytes.
   */
  function DecodeIndices(span: seq<byte>, pos: nat): (r: seq<uint16>)
    ensures pos <= |span| ==> |r| <= |span| - pos
    ensures pos < |span| ==> r != [] && r[0] == ReadVarUint16(span, pos).0
    ensures pos >= |span| ==> r == []
    decreases |span| - pos
  {
    if pos >= |span| then []
    else
      var (value, next) := ReadVarUint16(span, pos);
      [value] + DecodeIndices(span, next)
  }

  /** A span of single-byte varuints (no continuation bit anywhere) decodes to one index per byte. */
  lemma {:induction false} DecodeSingleByteIndices(span: seq<byte>, pos: nat)
    requires pos <= |span|
    requires forall i :: pos <= i < |span| ==> span[i] < 0x80
    ensures |DecodeIndices(span, pos)| == |span| - pos
    ensures forall i :: pos <= i < |span| ==> DecodeIndices(span, pos)[i - pos] == span[i]
    decreases |span| - pos
  {
    if pos < |span| {
      DecodeSingleByteIndices(span, pos + 1);
      var rest := DecodeIndices(span, pos + 1);
      assert ReadVarUint(span, pos) == Some((span[pos], pos + 1));
      assert DecodeIndices(span, pos) == [span[pos] as uint16] + rest;
      forall i | pos < i < |span|
        ensures DecodeIndices(span, pos)[i - pos] == span[i]
      {
        assert DecodeIndices(span, pos)[i - pos] == rest[i - (pos + 1)];
      }
    }
  }

  /** From `pos` on, the span is a run of whole varuints, each of which fits 16 bits. */
  predicate WholeIndices(span: seq<byte>, pos: nat)
    requires pos <= |span|
    decreases |span| - pos
  {
    pos == |span| ||
    (ReadVarUint(span, pos).Some? && ReadVarUint(span, pos).value.0 <= MaxUint16 &&
     WholeIndices(span, ReadVarUint(span, pos).value.1))
  }

  /** A varuint that ends inside `a` reads the same when more bytes follow. */
  lemma {:induction false} ReadVarUintPrefix(a: seq<byte>, b: seq<byte>, pos: nat)
    requires ReadVarUint(a, pos).Some?
    ensures ReadVarUint(a + b, pos) == ReadVarUint(a, pos)
    decreases |a| - pos
  {
    if a[pos] >= 0x80 {
      ReadVarUintPrefix(a, b, pos + 1);
    }
  }

  /** Reading inside `b` after a prefix `a` is reading `b`, with positions moved by |a|. */
  lemma {:induction false} ReadVarUintShift(a: seq<byte>, b: seq<byte>, pos: nat)
    ensures ReadVarUint(a + b, |a| + pos) ==
            match ReadVarUint(b, pos)
            case None => None
            case Some((value, next)) => Some((value, |a| + next))
    decreases |b| - pos
  {
    if pos < |b| {
      assert (a + b)[|a| + pos] == b[pos];
      if b[pos] >= 0x80 {
        ReadVarUintShift(a, b, pos + 1);
      }
    }
  }

  lemma {:induction false} DecodeIndicesShift(a: seq<byte>, b: seq<byte>, pos: nat)
    ensures DecodeIndices(a + b, |a| + pos) == DecodeIndices(b, pos)
    decreases |b| - pos
  {
    if pos < |b| {
      var (value, next) := ReadVarUint16(b, pos);
      assert ReadVarUint16(a + b, |a| + pos) == (value, |a| + next) by {
        ReadVarUintShift(a, b, pos);
      }
      DecodeIndicesShift(a, b, next);
      assert DecodeIndices(a + b, |a| + pos) == [value] + DecodeIndices(a + b, |a| + next);
    }
  }

  /**
   * The reader keeps no state between reads but its position: a run of whole index
   * varuints followed by any bytes decodes to the run's indices, then the rest's.
   */
  lemma {:induction false} DecodeIndicesAppend(a: seq<byte>, b: seq<byte>, pos: nat)
    requires pos <= |a|
    requires WholeIndices(a, pos)
    ensures DecodeIndices(a + b, pos) == DecodeIndices(a, pos) + DecodeIndices(b, 0)
    decreases |a| - pos
  {
    if pos == |a| {
      DecodeIndicesShift(a, b, 0);
    } else {
      ReadVarUintPrefix(a, b, pos);
      DecodeIndicesAppend(a, b, ReadVarUint(a, pos).value.1);
    }
  }
}
