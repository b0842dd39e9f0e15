/** Writing integers in a fixed byte order on any host, and left padding. */
module BytesWriting {

  type Byte = b: nat | b < 256

  function Power256(n: nat): (p: nat)
    ensures p > 0
  {
    if n == 0 then 1 else 256 * Power256(n - 1)
  }

  /** The base-256 digits of a value, least significant first, in a fixed width. */
  function LittleEndian(value: nat, size: nat): (bytes: seq<Byte>)
    ensures |bytes| == size
  {
    if size == 0 then [] else [value % 256] + LittleEndian(value / 256, size - 1)
  }

  /** Most significant first. */
  function BigEndian(value: nat, size: nat): (bytes: seq<Byte>)
    ensures |bytes| == size
  {
    if size == 0 then [] else BigEndian(value / 256, size - 1) + [value % 256]
  }

  /** How a host lays an unsigned value of `size` bytes out in memory. */
  function Memory(systemBigEndian: bool, value: nat, size: nat): seq<Byte> {
    if systemBigEndian then BigEndian(value, size) else LittleEndian(value, size)
  }

  function Reversed(s: seq<Byte>): seq<Byte> {
    seq(|s|, i requires 0 <= i < |s| => s[|s| - 1 - i])
  }

  lemma ReversedCons(x: Byte, s: seq<Byte>)
    ensures Reversed([x] + s) == Reversed(s) + [x]
  {
  }

  lemma ReversedTwice(s: seq<Byte>)
    ensures Reversed(Reversed(s)) == s
  {
  }

  lemma {:induction false} BigIsReversedLittle(value: nat, size: nat)
    ensures BigEndian(value, size) == Reversed(LittleEndian(value, size))
  {
    if size > 0 {
      BigIsReversedLittle(value / 256, size - 1);
      ReversedCons(value % 256, LittleEndian(value / 256, size - 1));
    }
  }

  lemma Mirrored(value: nat, size: nat)
    ensures BigEndian(value, size) == Reversed(LittleEndian(value, size))
    ensures LittleEndian(value, size) == Reversed(BigEndian(value, size))
  {
    BigIsReversedLittle(value, size);
    ReversedTwice(LittleEndian(value, size));
  }

  class BytesWriter {
    const systemBigEndian: bool
    var bytes: seq<Byte>

    constructor (systemBigEndian: bool)
      ensures this.systemBigEndian == systemBigEndian && bytes == []
    {
      this.systemBigEndian := systemBigEndian;
      bytes := [];
    }

    method WriteByte(b: Byte)
      modifies this
      ensures bytes == old(bytes) + [b]
    {
      bytes := bytes + [b];
    }

    /** From the last byte in memory to the first. */
    method WriteBackwards(memory: seq<Byte>)
      requires |memory| > 0
      modifies this
      ensures bytes == old(bytes) + Reversed(memory)
    {
      var i := |memory|;
      while true
        invariant 0 < i <= |memory|
        invariant bytes == old(bytes) + Reversed(memory)[..|memory| - i]
        decreases i
      {
        i := i - 1;
        WriteByte(memory[i]);
        if i == 0 {
          break;
        }
      }
    }

    method WriteForwards(memory: seq<Byte>)
      modifies this
      ensures bytes == old(bytes) + memory
    {
      for i := 0 to |memory|
        invariant bytes == old(bytes) + memory[..i]
      {
        WriteByte(memory[i]);
      }
    }

    /** The same bytes on every host: the digits, most significant first. */
    method WriteBeValue(value: nat, size: nat)
      requires size > 0
      modifies this
      ensures bytes == old(bytes) + BigEndian(value, size)
    {
      var memory := Memory(systemBigEndian, value, size);
      if !systemBigEndian {
        WriteBackwards(memory);
        Mirrored(value, size);
      } else {
        WriteForwards(memory);
      }
    }

    method WriteLeValue(value: nat, size: nat)
      requires size > 0
      modifies this
      ensures bytes == old(bytes) + LittleEndian(value, size)
    {
      var memory := Memory(systemBigEndian, value, size);
      if systemBigEndian {
        WriteBackwards(memory);
        Mirrored(value, size);
      } else {
        WriteForwards(memory);
      }
    }
  }

  // ---------------------------------------------------------------------------------------------
  // Padding
  // ---------------------------------------------------------------------------------------------

  class Vector<T> {
    var items: seq<T>

    constructor (items: seq<T>)
      ensures this.items == items
    {
      this.items := items;
    }
  }

  function Padded<T>(items: seq<T>, elem: T, length: nat): seq<T> {
    if |items| < length then seq(length - |items|, _ => elem) + items else items
  }

  method PadOnLeft<T>(vector: Vector<T>, elem: T, length: nat)
    modifies vector
    ensures vector.items == Padded(old(vector.items), elem, length)
    ensures var pad := if |old(vector.items)| < length then length - |old(vector.items)| else 0;
      && |vector.items| == pad + |old(vector.items)|
      && (forall i :: 0 <= i < pad ==> vector.items[i] == elem)
      && vector.items[pad..] == old(vector.items)
  {
    if |vector.items| < length {
      var maxPadAddress := length - |vector.items|;
      var result := new T[length](_ => elem);
      var j := 0;
      for i := 0 to length
        invariant j == if i < maxPadAddress then 0 else i - maxPadAddress
        invariant vector.items == old(vector.items)
        invariant forall k :: 0 <= k < i ==> result[k] == Padded(vector.items, elem, length)[k]
      {
        if i < maxPadAddress {
          result[i] := elem;
        } else {
          result[i] := vector.items[j];
          j := j + 1;
        }
      }
      vector.items := result[..];
    }
  }

  // ---------------------------------------------------------------------------------------------
  // The digits are the value
  // ---------------------------------------------------------------------------------------------

  function ValueOf(bytes: seq<Byte>): nat {
    if |bytes| == 0 then 0 else 256 * ValueOf(bytes[..|bytes| - 1]) + bytes[|bytes| - 1]
  }

  /** The digits without leading zeroes, most significant first. */
  function Minimal(value: nat): (bytes: seq<Byte>) {
    if value == 0 then [] else Minimal(value / 256) + [value % 256]
  }

  /** The bytes written give back the value exactly when it fits the width. */
  lemma {:induction false} ValueOfBigEndian(value: nat, size: nat)
    ensures ValueOf(BigEndian(value, size)) < Power256(size)
    ensures ValueOf(BigEndian(value, size)) == value <==> value < Power256(size)
  {
    if size > 0 {
      assert BigEndian(value, size)[..size - 1] == BigEndian(value / 256, size - 1);
      ValueOfBigEndian(value / 256, size - 1);
    }
  }

  /** A value that fits is what its memory reads as: from the first byte to the last on a big-endian host, from
      the last to the first on a little-endian one. */
  lemma MemoryIsTheValue(value: nat, size: nat)
    requires value < Power256(size)
    ensures ValueOf(Memory(true, value, size)) == value
    ensures ValueOf(Reversed(Memory(false, value, size))) == value
  {
    ValueOfBigEndian(value, size);
    Mirrored(value, size);
  }

  lemma {:induction false} MinimalFits(value: nat, size: nat)
    ensures |Minimal(value)| <= size <==> value < Power256(size)
  {
    if value > 0 && size > 0 {
      MinimalFits(value / 256, size - 1);
      assert value / 256 < Power256(size - 1) <==> value < 256 * Power256(size - 1);
    }
  }

  lemma {:induction false} PaddedMinimal(value: nat, size: nat)
    requires |Minimal(value)| <= size
    ensures Padded(Minimal(value), 0, size) == BigEndian(value, size)
  {
    if size > 0 {
      PaddedMinimal(value / 256, size - 1);
      if value > 0 {
        assert Padded(Minimal(value), 0, size) == Padded(Minimal(value / 256), 0, size - 1) + [value % 256];
      } else {
        assert seq(size, _ => 0 as Byte) == seq(size - 1, _ => 0 as Byte) + [0];
      }
    }
  }

  /** Padding the minimal digits with zeroes yields the fixed-width bytes exactly when the value fits. */
  lemma PaddedMinimalIsBigEndian(value: nat, size: nat)
    ensures Padded(Minimal(value), 0, size) == BigEndian(value, size) <==> value < Power256(size)
  {
    MinimalFits(value, size);
    if value < Power256(size) {
      PaddedMinimal(value, size);
    }
  }
}
