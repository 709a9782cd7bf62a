/** Fixed-width primitives of the positional wire format, as pure functions.
    Everything is big-endian. A decoder works on an immutable byte sequence and a
    Cursor (position plus sticky error); once the cursor holds an error, every
    read returns a zero value and leaves the cursor as it is. */
module Wire {

  newtype byte = x: int | 0 <= x < 0x100
  newtype i8 = x: int | -0x80 <= x < 0x80
  newtype i32 = x: int | -0x8000_0000 <= x < 0x8000_0000
  newtype u32 = x: int | 0 <= x < 0x1_0000_0000
  newtype i64 = x: int | -0x8000_0000_0000_0000 <= x < 0x8000_0000_0000_0000
  newtype u64 = x: int | 0 <= x < 0x1_0000_0000_0000_0000

  /** A Go string: a sequence of bytes. */
  type bytes = seq<byte>

  const TWO16: int := 0x1_0000
  const TWO32: int := 0x1_0000_0000
  const TWO64: int := 0x1_0000_0000_0000_0000

  /** Size of a frame header: a 2-byte version followed by a 4-byte byte count. */
  const HeaderSize: nat := 6

  datatype Option<T> = None | Some(value: T)

  /** The error taxonomy of the codec. */
  datatype Error =
    | Truncated(at: nat, need: nat)                       // fewer bytes left than a read needs
    | FrameMismatch(cls: string, declared: int, actual: int) // byte count differs from bytes consumed
    | UnknownClass(name: string)                          // polymorphic slot names an unregistered class
    | NegativeCount(count: int)                           // malformed collection or array length
    | WrongType(want: string, got: string)                // slot decoded to another class than its field type

  /** Read position and sticky error of a decoder. */
  datatype Cursor = Cursor(pos: nat, err: Option<Error>)

  /** A cursor that can go on reading `d`. */
  predicate Ready(d: bytes, c: Cursor) {
    c.err.None? && c.pos <= |d|
  }

  /** `s` occurs in `d` at offset `p`. */
  ghost predicate At(d: bytes, p: nat, s: bytes) {
    p + |s| <= |d| && d[p..p + |s|] == s
  }

  lemma AtSplit(d: bytes, p: nat, a: bytes, b: bytes)
    requires At(d, p, a + b)
    ensures At(d, p, a) && At(d, p + |a|, b)
  {
    assert d[p..p + |a|] == (a + b)[..|a|];
    assert d[p + |a|..p + |a| + |b|] == (a + b)[|a|..];
  }

  /** `AtSplit` with the position of the second piece given by name. */
  lemma AtSplitAt(d: bytes, p: nat, a: bytes, b: bytes, p1: nat)
    requires At(d, p, a + b) && p1 == p + |a|
    ensures At(d, p, a) && At(d, p1, b)
  {
    AtSplit(d, p, a, b);
  }

  /** A piece of an occurrence is the same piece of `d`. */
  lemma AtSlice(d: bytes, p: nat, s: bytes, i: nat, j: nat)
    requires At(d, p, s) && i <= j <= |s|
    ensures d[p + i..p + j] == s[i..j]
  {
    forall k | 0 <= k < j - i
      ensures d[p + i..p + j][k] == s[i..j][k]
    {
      assert d[p..p + |s|][i + k] == s[i + k];
    }
  }

  /** Occurrence survives cutting `d` anywhere after the end of `s`. */
  lemma AtPrefix(d: bytes, p: nat, s: bytes, n: nat)
    requires At(d, p, s) && p + |s| <= n <= |d|
    ensures At(d[..n], p, s)
  {
    assert d[..n][p..p + |s|] == d[p..p + |s|];
  }

  // ---------------------------------------------------------------- encoders

  function BE16(x: int): (r: bytes)
    ensures |r| == 2
  {
    var v := x % TWO16;
    [(v / 0x100) as byte, (v % 0x100) as byte]
  }

  /** 32-bit big-endian encoding; wider values wrap around, as a Go integer conversion does. */
  function BE32(x: int): (r: bytes)
    ensures |r| == 4
  {
    var v := x % TWO32;
    BE16(v / TWO16) + BE16(v % TWO16)
  }

  function BE64(x: int): (r: bytes)
    ensures |r| == 8
  {
    var v := x % TWO64;
    BE32(v / TWO32) + BE32(v % TWO32)
  }

  function BoolByte(b: bool): (r: bytes)
    ensures |r| == 1
  {
    [if b then 1 else 0]
  }

  function I8Byte(x: int): (r: bytes)
    ensures |r| == 1
  {
    [(x % 0x100) as byte]
  }

  /** A length-prefixed string. */
  function Str(s: bytes): (r: bytes)
    ensures |r| == 4 + |s|
  {
    BE32(|s|) + s
  }

  /** A frame: the version, the count of the bytes that follow it, then those bytes. */
  function Framed(v: nat, payload: bytes): (r: bytes)
    ensures |r| == HeaderSize + |payload|
  {
    BE16(v) + BE32(|payload|) + payload
  }

  /** A fast array: the words one after the other, with no count. */
  function FastU64(s: seq<u64>): (r: bytes)
    ensures |r| == 8 * |s|
  {
    if s == [] then [] else FastU64(s[..|s| - 1]) + BE64(s[|s| - 1] as int)
  }

  // ---------------------------------------------------------------- values of fixed-width fields

  function Val16(b: bytes): nat
    requires |b| == 2
  {
    b[0] as int * 0x100 + b[1] as int
  }

  function Val32(b: bytes): (r: nat)
    requires |b| == 4
    ensures r < TWO32
  {
    Val16(b[..2]) * TWO16 + Val16(b[2..])
  }

  function Val64(b: bytes): (r: nat)
    requires |b| == 8
    ensures r < TWO64
  {
    Val32(b[..4]) * TWO32 + Val32(b[4..])
  }

  function ToI8(v: nat): i8
    requires v < 0x100
  {
    if v >= 0x80 then (v - 0x100) as i8 else v as i8
  }

  function ToI32(v: nat): i32
    requires v < TWO32
  {
    if v >= 0x8000_0000 then (v - TWO32) as i32 else v as i32
  }

  function ToI64(v: nat): i64
    requires v < TWO64
  {
    if v >= 0x8000_0000_0000_0000 then (v - TWO64) as i64 else v as i64
  }

  lemma Val16BE16(x: int)
    ensures Val16(BE16(x)) == x % TWO16
  {
  }

  lemma Val32BE32(x: int)
    ensures Val32(BE32(x)) == x % TWO32
  {
    var v := x % TWO32;
    assert BE32(x)[..2] == BE16(v / TWO16);
    assert BE32(x)[2..] == BE16(v % TWO16);
    Val16BE16(v / TWO16);
    Val16BE16(v % TWO16);
  }

  lemma Val64BE64(x: int)
    ensures Val64(BE64(x)) == x % TWO64
  {
    var v := x % TWO64;
    assert BE64(x)[..4] == BE32(v / TWO32);
    assert BE64(x)[4..] == BE32(v % TWO32);
    Val32BE32(v / TWO32);
    Val32BE32(v % TWO32);
  }

  // ---------------------------------------------------------------- readers

  /** Consumes `n` raw bytes, or records a truncation. */
  function Take(d: bytes, c: Cursor, n: nat): (r: (bytes, Cursor))
    requires c.pos <= |d|
    ensures c.pos <= r.1.pos <= |d|
    ensures c.err.Some? ==> r == ([], c)
    ensures r.1.err.None? <==> c.err.None? && c.pos + n <= |d|
    ensures r.1.err.None? ==> r.0 == d[c.pos..c.pos + n] && r.1.pos == c.pos + n
  {
    if c.err.Some? then ([], c)
    else if c.pos + n > |d| then ([], Cursor(c.pos, Some(Truncated(c.pos, n))))
    else (d[c.pos..c.pos + n], Cursor(c.pos + n, None))
  }

  function ReadU16(d: bytes, c: Cursor): (r: (nat, Cursor))
    requires c.pos <= |d|
  {
    var (b, c1) := Take(d, c, 2);
    (if c1.err.Some? then 0 else Val16(b), c1)
  }

  function ReadU32(d: bytes, c: Cursor): (r: (u32, Cursor))
    requires c.pos <= |d|
  {
    var (b, c1) := Take(d, c, 4);
    (if c1.err.Some? then 0 else Val32(b) as u32, c1)
  }

  function ReadI32(d: bytes, c: Cursor): (r: (i32, Cursor))
    requires c.pos <= |d|
  {
    var (b, c1) := Take(d, c, 4);
    (if c1.err.Some? then 0 else ToI32(Val32(b)), c1)
  }

  function ReadI8(d: bytes, c: Cursor): (r: (i8, Cursor))
    requires c.pos <= |d|
  {
    var (b, c1) := Take(d, c, 1);
    (if c1.err.Some? then 0 else ToI8(b[0] as nat), c1)
  }

  /** Any non-zero byte reads as true. */
  function ReadBool(d: bytes, c: Cursor): (r: (bool, Cursor))
    requires c.pos <= |d|
  {
    var (b, c1) := Take(d, c, 1);
    (if c1.err.Some? then false else b[0] != 0, c1)
  }

  function ReadString(d: bytes, c: Cursor): (r: (bytes, Cursor))
    requires c.pos <= |d|
    ensures c.pos <= r.1.pos <= |d|
    ensures r.1.err.None? ==> r.1.pos == c.pos + 4 + |r.0|
  {
    var (n, c1) := ReadU32(d, c);
    Take(d, c1, n as nat)
  }

  /** A collection count: a signed 32-bit integer that must not be negative. */
  function ReadCount(d: bytes, c: Cursor): (r: (nat, Cursor))
    requires c.pos <= |d|
    ensures c.pos <= r.1.pos <= |d|
    ensures c.err.Some? ==> r.1 == c
    ensures r.1.err.None? ==> r.1.pos == c.pos + 4
    ensures c.err.None? && c.pos + 4 <= |d| ==>
      var k := ToI32(Val32(d[c.pos..c.pos + 4]));
      r == if k < 0 then (0, Cursor(c.pos + 4, Some(NegativeCount(k as int)))) else (k as nat, Cursor(c.pos + 4, None))
  {
    var (n, c1) := ReadI32(d, c);
    if c1.err.Some? then (0, c1)
    else if n < 0 then (0, c1.(err := Some(NegativeCount(n as int))))
    else (n as nat, c1)
  }

  function ReadU64(d: bytes, c: Cursor): (r: (u64, Cursor))
    requires c.pos <= |d|
  {
    var (b, c1) := Take(d, c, 8);
    (if c1.err.Some? then 0 else Val64(b) as u64, c1)
  }

  /** `n` consecutive words, read one after the other. */
  function ReadWords(d: bytes, c: Cursor, n: nat): (r: (seq<u64>, Cursor))
    requires c.pos <= |d|
    ensures c.pos <= r.1.pos <= |d| && |r.0| == n
    ensures c.err.Some? ==> r.1 == c
    ensures r.1.err.None? ==> r.1.pos == c.pos + 8 * n
  {
    if n == 0 then ([], c)
    else
      var (ws, c1) := ReadWords(d, c, n - 1);
      var (w, c2) := ReadU64(d, c1);
      (ws + [w], c2)
  }

  /** A fast array of `n` words; `n` is supplied by the caller. */
  function ReadFastU64(d: bytes, c: Cursor, n: int): (r: (seq<u64>, Cursor))
    requires c.pos <= |d|
    ensures c.pos <= r.1.pos <= |d|
    ensures c.err.Some? ==> r == ([], c)
    ensures r.1.err.None? ==> n >= 0 && |r.0| == n && r.1.pos == c.pos + 8 * n
    ensures c.err.None? && n < 0 ==> r == ([], c.(err := Some(NegativeCount(n))))
  {
    if c.err.Some? then ([], c)
    else if n < 0 then ([], c.(err := Some(NegativeCount(n))))
    else ReadWords(d, c, n)
  }

  /** Frame header: returns (version, position after the header, declared byte count). */
  function ReadVersion(d: bytes, c: Cursor): (r: (nat, nat, nat, Cursor))
    requires c.pos <= |d|
    ensures c.pos <= r.3.pos <= |d|
    ensures c.err.Some? ==> r.3 == c
    ensures r.3.err.None? <==> c.err.None? && c.pos + HeaderSize <= |d|
    ensures r.3.err.None? ==>
      r.3.pos == c.pos + HeaderSize && r.1 == r.3.pos &&
      r.2 == Val32(d[c.pos + 2..c.pos + HeaderSize])
  {
    var (v, c1) := ReadU16(d, c);
    var (n, c2) := ReadU32(d, c1);
    (v, c2.pos, n as nat, c2)
  }

  /** Compares the declared byte count with the bytes consumed since the header. */
  function CheckByteCount(c: Cursor, pos: nat, bcnt: int, start: nat, cls: string): (r: Cursor)
    ensures r.pos == c.pos
    ensures r.err.None? <==> c.err.None? && c.pos - pos == bcnt
    ensures c.err.None? && c.pos - pos != bcnt ==>
      r.err == Some(FrameMismatch(cls, bcnt, c.pos - pos))
  {
    var received := c.pos - start;
    var expected := bcnt + (pos - start);
    if c.err.Some? || received == expected then c
    else c.(err := Some(FrameMismatch(cls, bcnt, c.pos - pos)))
  }

  // ---------------------------------------------------------------- a read of an encoding restores the value

  // Each lemma reads at a position `q` with no error pending; the cursor after the read
  // is again error-free and has moved past the encoding.

  lemma ReadU32At(d: bytes, q: nat, x: int)
    requires At(d, q, BE32(x))
    ensures ReadU32(d, Cursor(q, None)) == ((x % TWO32) as u32, Cursor(q + 4, None))
  {
    Val32BE32(x);
  }

  lemma ReadU32ValAt(d: bytes, q: nat, x: u32)
    requires At(d, q, BE32(x as int))
    ensures ReadU32(d, Cursor(q, None)) == (x, Cursor(q + 4, None))
  {
    ReadU32At(d, q, x as int);
    assert (x as int) % TWO32 == x as int;
  }

  lemma ReadI32At(d: bytes, q: nat, x: i32)
    requires At(d, q, BE32(x as int))
    ensures ReadI32(d, Cursor(q, None)) == (x, Cursor(q + 4, None))
  {
    Val32BE32(x as int);
  }

  lemma ReadI8At(d: bytes, q: nat, x: int)
    requires At(d, q, I8Byte(x)) && -0x80 <= x < 0x80
    ensures ReadI8(d, Cursor(q, None)) == (x as i8, Cursor(q + 1, None))
  {
  }

  lemma ReadBoolAt(d: bytes, q: nat, b: bool)
    requires At(d, q, BoolByte(b))
    ensures ReadBool(d, Cursor(q, None)) == (b, Cursor(q + 1, None))
  {
  }

  lemma ReadStringAt(d: bytes, q: nat, s: bytes)
    requires At(d, q, Str(s)) && |s| < TWO32
    ensures ReadString(d, Cursor(q, None)) == (s, Cursor(q + 4 + |s|, None))
  {
    AtSplit(d, q, BE32(|s|), s);
    ReadU32At(d, q, |s|);
  }

  lemma ReadCountAt(d: bytes, q: nat, n: nat)
    requires At(d, q, BE32(n)) && n < 0x8000_0000
    ensures ReadCount(d, Cursor(q, None)) == (n, Cursor(q + 4, None))
  {
    ReadI32At(d, q, n as i32);
  }

  lemma ReadVersionAt(d: bytes, q: nat, v: nat, n: nat)
    requires At(d, q, BE16(v) + BE32(n)) && v < TWO16 && n < TWO32
    ensures ReadVersion(d, Cursor(q, None)) == (v, q + HeaderSize, n, Cursor(q + HeaderSize, None))
  {
    AtSplit(d, q, BE16(v), BE32(n));
    Val16BE16(v);
    ReadU32At(d, q + 2, n);
  }

  lemma ReadU64At(d: bytes, q: nat, x: u64)
    requires At(d, q, BE64(x as int))
    ensures ReadU64(d, Cursor(q, None)) == (x, Cursor(q + 8, None))
  {
    Val64BE64(x as int);
  }

  /** Reading back the words of a fast array gives the array. */
  lemma {:induction false} ReadWordsAt(d: bytes, q: nat, s: seq<u64>)
    requires At(d, q, FastU64(s))
    ensures ReadWords(d, Cursor(q, None), |s|) == (s, Cursor(q + 8 * |s|, None))
  {
    if s != [] {
      var init, last := s[..|s| - 1], s[|s| - 1];
      assert At(d, q, FastU64(init)) && At(d, q + 8 * |init|, BE64(last as int)) by {
        assert FastU64(s) == FastU64(init) + BE64(last as int);
        AtSplit(d, q, FastU64(init), BE64(last as int));
      }
      var c1 := Cursor(q + 8 * |init|, None);
      assert ReadWords(d, Cursor(q, None), |init|) == (init, c1) by {
        ReadWordsAt(d, q, init);
      }
      assert ReadU64(d, c1) == (last, Cursor(c1.pos + 8, None)) by {
        ReadU64At(d, q + 8 * |init|, last);
      }
      assert |init| == |s| - 1 && init + [last] == s;
    }
  }

  lemma ReadFastU64At(d: bytes, q: nat, s: seq<u64>)
    requires At(d, q, FastU64(s))
    ensures ReadFastU64(d, Cursor(q, None), |s|) == (s, Cursor(q + 8 * |s|, None))
  {
    ReadWordsAt(d, q, s);
  }

  // ---------------------------------------------------------------- class names on the wire

  predicate IsLatin1(s: string) {
    forall i :: 0 <= i < |s| ==> s[i] as int < 0x100
  }

  function Latin1(s: string): (r: bytes)
    requires IsLatin1(s)
    ensures |r| == |s|
  {
    seq(|s|, i requires 0 <= i < |s| => s[i] as int as byte)
  }

  function FromLatin1(b: bytes): (r: string)
    ensures |r| == |b| && IsLatin1(r)
  {
    seq(|b|, i requires 0 <= i < |b| => b[i] as int as char)
  }

  lemma FromLatin1Latin1(s: string)
    requires IsLatin1(s)
    ensures FromLatin1(Latin1(s)) == s
  {
  }
}
