/** The growable byte buffer of the source-map builder. */
module DynamicBuffers {
  import opened Vlq

  type Bytes = seq<int>

  /** The bytes of a sequence of Base64 digits. */
  function Chars(ds: seq<int>): (cs: Bytes)
    requires forall i :: 0 <= i < |ds| ==> IsDigit(ds[i])
    ensures |cs| == |ds| && forall i :: 0 <= i < |ds| ==> cs[i] == IntegerToChar(ds[i])
  {
    seq(|ds|, i requires 0 <= i < |ds| => IntegerToChar(ds[i]))
  }

  lemma CharsAppend(a: seq<int>, b: seq<int>)
    requires forall i :: 0 <= i < |a| ==> IsDigit(a[i])
    requires forall i :: 0 <= i < |b| ==> IsDigit(b[i])
    ensures Chars(a + b) == Chars(a) + Chars(b)
  {
  }

  function EncodeBytes(n: int): Bytes
  {
    Chars(Encode(n))
  }

  lemma EncodedSigned(n: int)
    ensures EncodeBytes(n) == Chars(Digits(Signed(n)))
  {
  }

  /** The digits of a number are its last five bits and then those of the rest. */
  lemma FirstChar(num: int)
    requires -TWO31 <= num < TWO31
    ensures var rest := DropDigit(num);
      && -TWO31 <= rest < TWO31 && (num > 0 ==> rest < num) && (num <= 0 ==> rest <= 0)
      && Chars(Digits(num)) ==
           (if rest > 0 then [IntegerToChar(num % 32 + 32)] + Chars(Digits(rest)) else [IntegerToChar(num % 32)])
  {
    var rest := DropDigit(num);
    if rest > 0 {
      assert Digits(num) == [num % 32 + 32] + Digits(rest);
      CharsAppend([num % 32 + 32], Digits(rest));
      assert Chars([num % 32 + 32]) == [IntegerToChar(num % 32 + 32)];
    }
  }

  class DynamicBuffer {
    var buffer: array<int>
    var size: int

    ghost predicate Valid()
      reads this
    {
      0 <= size <= buffer.Length
    }

    ghost function Contents(): Bytes
      reads this, buffer
      requires Valid()
    {
      buffer[..size]
    }

    constructor ()
      ensures Valid() && Contents() == [] && fresh(buffer) && buffer.Length == 512
    {
      buffer := new int[512](_ => 0);
      size := 0;
    }

    /** Room for at least `capacity` bytes; what is there stays. When it has to
        move, the room at least doubles. */
    method EnsureCapacity(capacity: int)
      requires Valid()
      modifies this
      ensures Valid() && Contents() == old(Contents()) && size == old(size)
      ensures buffer == old(buffer) || fresh(buffer)
      ensures buffer.Length >= capacity
      ensures buffer != old(buffer) ==> old(buffer.Length) < capacity && buffer.Length >= 2 * old(buffer.Length)
    {
      if buffer.Length >= capacity {
        return;
      }
      var oldBuffer := buffer;
      var length := if oldBuffer.Length * 2 > capacity then oldBuffer.Length * 2 else capacity;
      buffer := new int[length](_ => 0);
      forall i | 0 <= i < oldBuffer.Length {
        buffer[i] := oldBuffer[i];
      }
    }

    method AddByte(b: int)
      requires Valid()
      modifies this, buffer
      ensures Valid() && Contents() == old(Contents()) + [b]
      ensures buffer == old(buffer) || fresh(buffer)
    {
      EnsureCapacity(size + 1);
      buffer[size] := b;
      size := size + 1;
    }

    /** Also what `addString` does with the encoded string. */
    method AddBuffer(b: Bytes)
      requires Valid()
      modifies this, buffer
      ensures Valid() && Contents() == old(Contents()) + b
      ensures buffer == old(buffer) || fresh(buffer)
    {
      EnsureCapacity(size + |b|);
      forall i | 0 <= i < |b| {
        buffer[size + i] := b[i];
      }
      size := size + |b|;
    }

    method AddVLQ(n: int)
      requires Valid()
      modifies this, buffer
      ensures Valid() && Contents() == old(Contents()) + EncodeBytes(n)
      ensures buffer == old(buffer) || fresh(buffer)
    {
      hide Signed, Digits, Chars, DropDigit, IntegerToChar, EncodeBytes, Encode;
      SignedRange(n);
      EncodedSigned(n);
      var num := Signed(n);
      ghost var left := EncodeBytes(n);
      var more := true;
      while more
        invariant Valid() && (buffer == old(buffer) || fresh(buffer))
        invariant -TWO31 <= num < TWO31
        invariant Contents() + left == old(Contents()) + EncodeBytes(n)
        invariant left == if more then Chars(Digits(num)) else []
        decreases more, num
      {
        var clamped := num % 32;
        var rest := DropDigit(num);
        FirstChar(num);
        if rest > 0 {
          clamped := clamped + 32;
        }
        left := if rest > 0 then Chars(Digits(rest)) else [];
        assert Contents() + ([IntegerToChar(clamped)] + left) == (Contents() + [IntegerToChar(clamped)]) + left;
        AddByte(IntegerToChar(clamped));
        num := rest;
        more := num > 0;
      }
      assert Contents() + [] == Contents();
    }

    method ToBuffer() returns (b: Bytes)
      requires Valid()
      ensures b == Contents()
    {
      b := buffer[..size];
    }
  }
}
