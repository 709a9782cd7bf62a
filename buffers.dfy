/** The write and read buffers (`rbytes.WBuffer`, `rbytes.RBuffer`) as objects with a
    sticky error: once `err` is set, every write leaves the bytes alone and every read
    leaves the position alone and yields a zero value. Each read method is proved to
    behave as the reader function of the same name on the buffer's cursor. */
module Buffers {
  import opened Wire

  // Proof scaffolding, not a model of anything in the source: frame patching and the
  // regrouping of appended pieces, so that what the writes appended one at a time is the
  // concatenation that an encoding names.

  /** Patching the reserved count of a frame opened after `pre` yields the finished frame. */
  lemma PatchFrame(pre: bytes, v: nat, payload: bytes)
    ensures var d := pre + BE16(v) + BE32(0) + payload;
      d[..|pre| + 2] + BE32(|payload|) + d[|pre| + 6..] == pre + Framed(v, payload)
  {
    var d := pre + BE16(v) + BE32(0) + payload;
    assert d[..|pre| + 2] == pre + BE16(v);
    assert d[|pre| + 6..] == payload;
  }

  lemma Appended2(h: bytes, a: bytes, b: bytes)
    ensures h + a + b == h + (a + b)
  {
  }

  lemma Appended3(h: bytes, a: bytes, b: bytes, c: bytes)
    ensures h + a + b + c == h + (a + b + c)
  {
  }

  lemma Appended5(h: bytes, a: bytes, b: bytes, c: bytes, d: bytes, e: bytes)
    ensures h + a + b + c + d + e == h + (a + b + c + d + e)
  {
  }

  lemma Appended6(h: bytes, a: bytes, b: bytes, c: bytes, d: bytes, e: bytes, f: bytes)
    ensures h + a + b + c + d + e + f == h + (a + b + c + d + e + f)
  {
  }

  lemma Appended7(h: bytes, a: bytes, b: bytes, c: bytes, d: bytes, e: bytes, f: bytes, g: bytes)
    ensures h + a + b + c + d + e + f + g == h + (a + b + c + d + e + f + g)
  {
  }

  class WBuffer {
    var data: bytes
    var err: Option<Error>

    constructor (e: Option<Error>)
      ensures data == [] && err == e
    {
      data := [];
      err := e;
    }

    method Write(b: bytes)
      modifies this
      ensures err == old(err)
      ensures data == if err.Some? then old(data) else old(data) + b
    {
      if err.None? {
        data := data + b;
      }
    }

    method WriteU32(x: u32)
      modifies this
      ensures err == old(err)
      ensures data == if err.Some? then old(data) else old(data) + BE32(x as int)
    {
      Write(BE32(x as int));
    }

    /** A collection length, as a 32-bit count. */
    method WriteCount(n: nat)
      modifies this
      ensures err == old(err)
      ensures data == if err.Some? then old(data) else old(data) + BE32(n)
    {
      Write(BE32(n));
    }

    method WriteI32(x: i32)
      modifies this
      ensures err == old(err)
      ensures data == if err.Some? then old(data) else old(data) + BE32(x as int)
    {
      Write(BE32(x as int));
    }

    method WriteI8(x: i8)
      modifies this
      ensures err == old(err)
      ensures data == if err.Some? then old(data) else old(data) + I8Byte(x as int)
    {
      Write(I8Byte(x as int));
    }

    method WriteBool(b: bool)
      modifies this
      ensures err == old(err)
      ensures data == if err.Some? then old(data) else old(data) + BoolByte(b)
    {
      Write(BoolByte(b));
    }

    method WriteString(s: bytes)
      modifies this
      ensures err == old(err)
      ensures data == if err.Some? then old(data) else old(data) + Str(s)
    {
      Write(Str(s));
    }

    /** The values one word after the other; the count is not written. */
    method WriteFastArrayU64(vs: seq<u64>)
      modifies this
      ensures err == old(err)
      ensures data == if err.Some? then old(data) else old(data) + FastU64(vs)
    {
      if err.Some? {
        return;
      }
      var i := 0;
      while i < |vs|
        invariant 0 <= i <= |vs|
        invariant err == old(err) && err.None?
        invariant data == old(data) + FastU64(vs[..i])
      {
        assert vs[..i + 1][..i] == vs[..i];
        Write(BE64(vs[i] as int));
        i := i + 1;
      }
      assert vs[..i] == vs;
    }

    /** Opens a frame: the version, then a zero count to be patched; returns where the count is. */
    method WriteVersion(v: nat) returns (pos: nat)
      modifies this
      ensures err == old(err)
      ensures err.None? ==> pos == |old(data)| + 2 && data == old(data) + BE16(v) + BE32(0)
      ensures err.Some? ==> data == old(data)
    {
      Write(BE16(v));
      pos := |data|;
      Write(BE32(0));
    }

    /** Closes a frame: patches the count with the number of bytes written after it and
        returns the size of the whole object, header included. The ghost parameters name
        the bytes before the frame, its version and its payload. */
    method SetByteCount(pos: nat, cls: string, ghost pre: bytes, ghost v: nat, ghost payload: bytes)
      returns (n: int, e: Option<Error>)
      requires err.None? ==> data == pre + BE16(v) + BE32(0) + payload && pos == |pre| + 2
      modifies this
      ensures err == old(err) && e == err
      ensures err.Some? ==> data == old(data) && n == 0
      ensures err.None? ==> data == pre + Framed(v, payload) && n == |Framed(v, payload)|
    {
      if err.Some? {
        return 0, err;
      }
      PatchFrame(pre, v, payload);
      var cnt := |data| - pos - 4;
      data := data[..pos] + BE32(cnt) + data[pos + 4..];
      n := cnt + HeaderSize;
      e := err;
    }
  }

  class RBuffer {
    const data: bytes
    var pos: nat
    var err: Option<Error>

    predicate Valid()
      reads this
    {
      pos <= |data|
    }

    function Cur(): Cursor
      reads this
    {
      Cursor(pos, err)
    }

    constructor (d: bytes)
      ensures data == d && pos == 0 && err == None && Valid()
    {
      data := d;
      pos := 0;
      err := None;
    }

    method Take(n: nat) returns (b: bytes)
      requires Valid()
      modifies this
      ensures Valid() && (b, Cur()) == Wire.Take(data, old(Cur()), n)
    {
      if err.Some? {
        return [];
      }
      if pos + n > |data| {
        err := Some(Truncated(pos, n));
        return [];
      }
      b := data[pos..pos + n];
      pos := pos + n;
    }

    method ReadU16() returns (x: nat)
      requires Valid()
      modifies this
      ensures Valid() && (x, Cur()) == Wire.ReadU16(data, old(Cur()))
    {
      var b := Take(2);
      x := if err.Some? then 0 else Val16(b);
    }

    method ReadU32() returns (x: u32)
      requires Valid()
      modifies this
      ensures Valid() && (x, Cur()) == Wire.ReadU32(data, old(Cur()))
    {
      var b := Take(4);
      x := if err.Some? then 0 else Val32(b) as u32;
    }

    method ReadI32() returns (x: i32)
      requires Valid()
      modifies this
      ensures Valid() && (x, Cur()) == Wire.ReadI32(data, old(Cur()))
    {
      var b := Take(4);
      x := if err.Some? then 0 else ToI32(Val32(b));
    }

    method ReadI8() returns (x: i8)
      requires Valid()
      modifies this
      ensures Valid() && (x, Cur()) == Wire.ReadI8(data, old(Cur()))
    {
      var b := Take(1);
      x := if err.Some? then 0 else ToI8(b[0] as nat);
    }

    method ReadBool() returns (x: bool)
      requires Valid()
      modifies this
      ensures Valid() && (x, Cur()) == Wire.ReadBool(data, old(Cur()))
    {
      var b := Take(1);
      x := if err.Some? then false else b[0] != 0;
    }

    method ReadString() returns (s: bytes)
      requires Valid()
      modifies this
      ensures Valid() && (s, Cur()) == Wire.ReadString(data, old(Cur()))
    {
      var n := ReadU32();
      s := Take(n as nat);
    }

    method ReadCount() returns (n: nat)
      requires Valid()
      modifies this
      ensures Valid() && (n, Cur()) == Wire.ReadCount(data, old(Cur()))
    {
      var k := ReadI32();
      if err.Some? {
        return 0;
      }
      if k < 0 {
        err := Some(NegativeCount(k as int));
        return 0;
      }
      n := k as nat;
    }

    method ReadU64() returns (x: u64)
      requires Valid()
      modifies this
      ensures Valid() && (x, Cur()) == Wire.ReadU64(data, old(Cur()))
    {
      var b := Take(8);
      x := if err.Some? then 0 else Val64(b) as u64;
    }

    /** `n` words; a negative `n` is an error. */
    method ReadFastArrayU64(n: int) returns (vs: seq<u64>)
      requires Valid()
      modifies this
      ensures Valid() && (vs, Cur()) == Wire.ReadFastU64(data, old(Cur()), n)
    {
      if err.Some? {
        return [];
      }
      if n < 0 {
        err := Some(NegativeCount(n));
        return [];
      }
      ghost var c0 := Cur();
      vs := [];
      var i := 0;
      while i < n
        invariant 0 <= i <= n && Valid()
        invariant (vs, Cur()) == Wire.ReadWords(data, c0, i)
      {
        var w := ReadU64();
        vs := vs + [w];
        i := i + 1;
      }
    }

    /** Reads a frame header; returns the version, the position after the header and the
        declared byte count. */
    method ReadVersion() returns (v: nat, p: nat, bcnt: nat)
      requires Valid()
      modifies this
      ensures Valid() && (v, p, bcnt, Cur()) == Wire.ReadVersion(data, old(Cur()))
    {
      v := ReadU16();
      var n := ReadU32();
      p := pos;
      bcnt := n as nat;
    }

    method CheckByteCount(p: nat, bcnt: int, start: nat, cls: string)
      requires Valid()
      modifies this
      ensures Valid() && Cur() == Wire.CheckByteCount(old(Cur()), p, bcnt, start, cls)
    {
      var received := pos - start;
      var expected := bcnt + (p - start);
      if err.None? && received != expected {
        err := Some(FrameMismatch(cls, bcnt, pos - p));
      }
    }

    /** Records an error that ends decoding (a failed type assertion in the source). */
    method Fail(e: Error)
      requires Valid()
      modifies this
      ensures Valid() && pos == old(pos) && err == Some(e)
    {
      err := Some(e);
    }
  }
}
