/** Byte buffers: exclusive or, and comparison in time independent of the contents. */
module Bytes {
  import opened Wrappers

  type Byte = bv8

  type Buffer = seq<Byte>

  /** The salt of an account whose password is no longer usable. */
  function Ones(): Buffer {
    seq(32, _ => 255)
  }

  function Xor(a: Buffer, b: Buffer): (r: Buffer)
    requires |a| == |b|
    ensures |r| == |a|
  {
    seq(|a|, i requires 0 <= i < |a| => a[i] ^ b[i])
  }

  /** Masking twice with the same key gives the text back, and different texts stay
      different. */
  lemma XorInvolution(key: Buffer, text: Buffer)
    requires |key| == |text|
    ensures Xor(key, Xor(key, text)) == text
    ensures Xor(text, key) == Xor(key, text)
  {
    forall i | 0 <= i < |text|
      ensures key[i] ^ (key[i] ^ text[i]) == text[i]
      ensures text[i] ^ key[i] == key[i] ^ text[i]
    {
    }
  }

  /** `None` is the error for buffers of different lengths. */
  method XorBuffers(buffer1: Buffer, buffer2: Buffer) returns (r: Option<Buffer>)
    ensures r == if |buffer1| == |buffer2| then Some(Xor(buffer1, buffer2)) else None
  {
    if |buffer1| != |buffer2| {
      return None;
    }
    var result := new Byte[|buffer1|](_ => 0);
    for i := 0 to |buffer1|
      invariant forall k :: 0 <= k < i ==> result[k] == buffer1[k] ^ buffer2[k]
    {
      result[i] := buffer1[i] ^ buffer2[i];
    }
    assert result[..] == Xor(buffer1, buffer2);
    return Some(result[..]);
  }

  /** Collects every difference instead of stopping at the first. */
  method BuffersAreEqual(buffer1: Buffer, buffer2: Buffer) returns (equal: bool)
    ensures equal <==> buffer1 == buffer2
  {
    if |buffer1| != |buffer2| {
      return false;
    }
    var mismatch: Byte := 0;
    for i := 0 to |buffer1|
      invariant mismatch == 0 <==> buffer1[..i] == buffer2[..i]
    {
      MismatchGrows(mismatch, buffer1[i], buffer2[i]);
      assert buffer1[..i + 1] == buffer1[..i] + [buffer1[i]];
      assert buffer2[..i + 1] == buffer2[..i] + [buffer2[i]];
      mismatch := mismatch | (buffer1[i] ^ buffer2[i]);
    }
    assert buffer1[..|buffer1|] == buffer1 && buffer2[..|buffer2|] == buffer2;
    return mismatch == 0;
  }

  lemma MismatchGrows(m: Byte, a: Byte, b: Byte)
    ensures m | (a ^ b) == 0 <==> m == 0 && a == b
  {
  }
}
