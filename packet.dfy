/**
 * The byte reader of the game-server queries: a packet is the datagram a
 * server answered with and a cursor into it. Every read starts at the
 * cursor (after moving it to an explicit offset when one is given and it
 * lies inside the packet) and advances it past what it read.
 *
 * Bytes are the characters of a Python 2 `str`. Indexing follows Python:
 * a negative position counts from the end, and a position outside the
 * packet raises `IndexError`; `struct.unpack_from` raises `struct.error`
 * when fewer bytes than the format needs are left.
 */
module GamePackets {
  import opened Wrappers
  import opened Text

  type Byte = b: int | 0 <= b < 256

  /** Why a read raised. */
  datatype PacketError = IndexError | StructError

  /** What a read yields: the 1-byte string of `read_byte()`, a number
      (`read_short`, `read_int`, `read_byte(use_ord=True)`), or the
      decimal text `read_ord` builds. */
  datatype Value = Bytes(bytes: seq<Byte>) | Number(n: int) | Digits(text: string)

  /** The outcome of a read together with where the cursor is left. */
  datatype Read<T> = Read(value: Result<T, PacketError>, offset: int)

  /** Python's `data[k]`. */
  function Index(data: seq<Byte>, k: int): (r: Option<Byte>)
    ensures r.None? <==> k >= |data| || k < -|data|
    ensures 0 <= k < |data| ==> r == Some(data[k])
  {
    if 0 <= k < |data| then Some(data[k])
    else if -|data| <= k < 0 then Some(data[|data| + k])
    else None
  }

  /** Where the cursor is after `if offset != -1: set_offset(offset)`. */
  function Seek(data: seq<Byte>, cursor: int, o: int): int {
    if 0 <= o < |data| then o else cursor
  }

  // ---------------------------------------------------------------------
  // Fixed-width integers in the byte order of the host (little-endian).

  /** An unsigned 16-bit value from two bytes. */
  function Unsigned16(b: seq<Byte>): int
    requires |b| == 2
  {
    b[0] as int + 256 * b[1] as int
  }

  function Unsigned32(b: seq<Byte>): int
    requires |b| == 4
  {
    b[0] as int + 256 * (b[1] as int + 256 * (b[2] as int + 256 * b[3] as int))
  }

  /** A signed 32-bit value (`struct` format `i`) from four bytes. */
  function Signed32(b: seq<Byte>): int
    requires |b| == 4
  {
    var u := Unsigned32(b);
    if u >= 0x8000_0000 then u - 0x1_0000_0000 else u
  }

  predicate InInt32(v: int) {
    -0x8000_0000 <= v < 0x8000_0000
  }

  /** `struct.pack('i', v)`, defined only where `pack` does not raise. */
  function Pack32(v: int): (r: seq<Byte>)
    requires InInt32(v)
    ensures |r| == 4
  {
    var u := if v < 0 then v + 0x1_0000_0000 else v;
    var u1 := u / 256;
    var u2 := u1 / 256;
    [u % 256, u1 % 256, u2 % 256, u2 / 256]
  }

  lemma Unsigned32Bounds(b: seq<Byte>)
    requires |b| == 4
    ensures 0 <= Unsigned32(b) < 0x1_0000_0000
  {
  }

  /** Unpacking what was packed gives the value back. */
  lemma UnpackPack(v: int)
    requires InInt32(v)
    ensures Signed32(Pack32(v)) == v
  {
    var u := if v < 0 then v + 0x1_0000_0000 else v;
    var u1 := u / 256;
    var u2 := u1 / 256;
    assert u == u % 256 + 256 * u1;
    assert u1 == u1 % 256 + 256 * u2;
    assert u2 == u2 % 256 + 256 * (u2 / 256);
    assert Unsigned32(Pack32(v)) == u;
  }

  /** Packing what was unpacked gives the bytes back: the four bytes of a
      signed 32-bit value are all it holds. */
  lemma PackUnpack(b: seq<Byte>)
    requires |b| == 4
    ensures InInt32(Signed32(b)) && Pack32(Signed32(b)) == b
  {
    Unsigned32Bounds(b);
    var u := Unsigned32(b);
    var p := Pack32(Signed32(b));
    var u1 := b[1] as int + 256 * (b[2] as int + 256 * b[3] as int);
    var u2 := b[2] as int + 256 * b[3] as int;
    assert u % 256 == b[0] && u / 256 == u1;
    assert u1 % 256 == b[1] && u1 / 256 == u2;
    assert u2 % 256 == b[2] && u2 / 256 == b[3];
    assert p[0] == b[0] && p[1] == b[1] && p[2] == b[2] && p[3] == b[3];
  }

  /** `struct.pack('i', -1)` is four bytes `\xFF`. */
  lemma PackMinusOne()
    ensures Pack32(-1) == [255, 255, 255, 255]
  {
  }

  // ---------------------------------------------------------------------
  // The reads, as functions of the packet's bytes and the cursor.

  /** `read_string` from cursor `k`: the bytes up to the first NUL. */
  function StringFrom(data: seq<Byte>, k: int): (r: Read<seq<Byte>>)
    ensures r.offset >= k
    ensures k <= |data| ==> r.offset <= |data|
    ensures r.value.Ok? && r.value.value != [] ==> r.offset > k
    decreases |data| - k
  {
    if k >= |data| then Read(Ok([]), k)
    else match Index(data, k)
      case None => Read(Err(IndexError), k)
      case Some(b) =>
        if b == 0 then Read(Ok([]), k + 1)
        else Prepend([b], StringFrom(data, k + 1))
  }

  /** The outcome of a read that had already collected `prefix`. */
  function Prepend<T>(prefix: seq<T>, r: Read<seq<T>>): Read<seq<T>> {
    Read(if r.value.Ok? then Ok(prefix + r.value.value) else r.value, r.offset)
  }

  lemma PrependNothing<T>(r: Read<seq<T>>)
    ensures Prepend([], r) == r
  {
    if r.value.Ok? {
      assert [] + r.value.value == r.value.value;
    }
  }

  lemma PrependTwice<T>(a: seq<T>, b: seq<T>, r: Read<seq<T>>)
    ensures Prepend(a, Prepend(b, r)) == Prepend(a + b, r)
  {
    if r.value.Ok? {
      assert a + (b + r.value.value) == (a + b) + r.value.value;
    }
  }

  /** From a cursor inside the packet, `read_string` never raises; it
      returns the bytes before the first NUL, which hold no NUL, and
      leaves the cursor just past that NUL, or at the end of the packet
      when there is none. */
  lemma {:induction false} StringStopsAtNul(data: seq<Byte>, k: int)
    requires 0 <= k <= |data|
    ensures var r := StringFrom(data, k);
      r.value.Ok? &&
      var s := r.value.value;
      k + |s| <= |data| && s == data[k..k + |s|] && 0 !in s &&
      ((k + |s| < |data| && data[k + |s|] == 0 && r.offset == k + |s| + 1) ||
       (k + |s| == |data| && r.offset == |data|))
    decreases |data| - k
  {
    if k < |data| && data[k] != 0 {
      StringStopsAtNul(data, k + 1);
      var rest := StringFrom(data, k + 1).value.value;
      assert StringFrom(data, k).value.value == [data[k]] + rest;
      assert data[k..k + 1 + |rest|] == [data[k]] + data[k + 1..k + 1 + |rest|];
    }
  }

  /** A NUL-terminated string written at cursor `k` is read back whole,
      and the cursor is left just past its NUL. */
  lemma {:induction false} StringReadsBack(data: seq<Byte>, k: int, s: seq<Byte>)
    requires 0 <= k && k + |s| < |data|
    requires data[k..k + |s|] == s && 0 !in s && data[k + |s|] == 0
    ensures StringFrom(data, k) == Read(Ok(s), k + |s| + 1)
    decreases |s|
  {
    if s != [] {
      assert data[k] == s[0];
      assert data[k + 1..k + 1 + |s[1..]|] == s[1..];
      StringReadsBack(data, k + 1, s[1..]);
      assert [s[0]] + s[1..] == s;
    }
  }

  /** `read_int` from cursor `k`. */
  function IntAt(data: seq<Byte>, k: int): Read<int> {
    if 0 <= k && k + 4 <= |data| then Read(Ok(Signed32(data[k..k + 4])), k + 4)
    else Read(Err(StructError), k)
  }

  /** `read_int` decodes exactly the four bytes at the cursor: it succeeds
      iff they are inside the packet, the value is a signed 32-bit integer
      whose packing is those bytes, and the cursor moves by 4. */
  lemma IntDecodes(data: seq<Byte>, k: int)
    ensures IntAt(data, k).value.Ok? <==> 0 <= k && k + 4 <= |data|
    ensures IntAt(data, k).value.Ok? ==>
      var v := IntAt(data, k).value.value;
      InInt32(v) && Pack32(v) == data[k..k + 4] && IntAt(data, k).offset == k + 4
    ensures IntAt(data, k).value.Err? ==> IntAt(data, k).offset == k
  {
    if 0 <= k && k + 4 <= |data| {
      PackUnpack(data[k..k + 4]);
    }
  }

  /** `read_short` from cursor `k`. */
  function ShortAt(data: seq<Byte>, k: int): Read<int> {
    if 0 <= k && k + 2 <= |data| then Read(Ok(Unsigned16(data[k..k + 2])), k + 2)
    else Read(Err(StructError), k)
  }

  /** `read_short` decodes an unsigned 16-bit value whose low byte is at
      the cursor and whose high byte follows, and moves the cursor by 2. */
  lemma ShortDecodes(data: seq<Byte>, k: int)
    ensures ShortAt(data, k).value.Ok? <==> 0 <= k && k + 2 <= |data|
    ensures ShortAt(data, k).value.Ok? ==>
      var v := ShortAt(data, k).value.value;
      0 <= v < 65536 && v % 256 == data[k] && v / 256 == data[k + 1] && ShortAt(data, k).offset == k + 2
  {
  }

  /** `read_byte(use_ord)` from cursor `k`. */
  function ByteAt(data: seq<Byte>, k: int, useOrd: bool): (r: Read<Value>)
    ensures r.value.Ok? && useOrd ==> r.value.value.Number? && 0 <= r.value.value.n < 256
  {
    match Index(data, k)
      case None => Read(Err(IndexError), k)
      case Some(b) => Read(Ok(if useOrd then Number(b) else Bytes([b])), k + 1)
  }

  /** `read_byte` gives the byte at the cursor, as a 1-byte string or as
      its ordinal, and moves the cursor by one. */
  lemma ByteReads(data: seq<Byte>, k: int, useOrd: bool)
    requires 0 <= k < |data|
    ensures ByteAt(data, k, useOrd) == Read(Ok(if useOrd then Number(data[k]) else Bytes([data[k]])), k + 1)
  {
  }

  /** `read_ord(n)` from cursor `k`. */
  function OrdsFrom(data: seq<Byte>, k: int, n: int): Read<string>
    decreases n
  {
    if n <= 0 then Read(Ok(""), k)
    else
      var b := ByteAt(data, k, true);
      if b.value.Err? then Read(Err(b.value.error), b.offset)
      else Prepend(NatToString(b.value.value.n), OrdsFrom(data, b.offset, n - 1))
  }

  /** The decimal renderings of some bytes, one after the other. */
  function Ords(bytes: seq<Byte>): string {
    if bytes == [] then "" else NatToString(bytes[0]) + Ords(bytes[1..])
  }

  /** Inside the packet, `read_ord(n)` gives the decimal renderings of the
      next `n` bytes and moves the cursor by `n`. */
  lemma {:induction false} OrdsRead(data: seq<Byte>, k: int, n: nat)
    requires 0 <= k && k + n <= |data|
    ensures OrdsFrom(data, k, n) == Read(Ok(Ords(data[k..k + n])), k + n)
    decreases n
  {
    if n > 0 {
      OrdsRead(data, k + 1, n - 1);
      assert data[k..k + n][1..] == data[k + 1..k + n];
    }
  }

  /** Past the end of the packet, `read_ord` raises `IndexError` with the
      cursor at the end. */
  lemma {:induction false} OrdsPastEnd(data: seq<Byte>, k: int, n: nat)
    requires 0 <= k <= |data| < k + n
    ensures OrdsFrom(data, k, n) == Read(Err(IndexError), |data|)
    decreases n
  {
    if k < |data| {
      OrdsPastEnd(data, k + 1, n - 1);
    }
  }

  /** One byte read with `read_ord` reads back, through `int`, as that
      byte. */
  lemma OrdReadsBack(data: seq<Byte>, k: int)
    requires 0 <= k < |data|
    ensures OrdsFrom(data, k, 1).value.Ok? && ParseInt(OrdsFrom(data, k, 1).value.value) == Some(data[k])
  {
    OrdsRead(data, k, 1);
    var text := NatToString(data[k]);
    assert data[k..k + 1] == [data[k]];
    assert Ords([data[k]]) == text + Ords([]) == text + "";
    assert text + "" == text;
    assert OrdsFrom(data, k, 1).value.value == text;
    NatToStringRoundTrip(data[k]);
  }

  class Packet {
    const data: seq<Byte>
    var offset: int

    constructor (data: seq<Byte>)
      ensures this.data == data && offset == 0
    {
      this.data := data;
      offset := 0;
    }

    /** `get_remaining_length()`: how many bytes lie after the cursor;
        never negative, even with the cursor past the end. */
    function RemainingLength(): (r: nat)
      reads this
      ensures r == 0 <==> offset >= |data|
      ensures offset <= |data| ==> offset + r == |data|
    {
      if |data| - offset > 0 then |data| - offset else 0
    }

    /** `set_offset(o)`: only a position inside the packet is taken. */
    method SetOffset(o: int)
      modifies this
      ensures 0 <= o < |data| ==> offset == o
      ensures !(0 <= o < |data|) ==> offset == old(offset)
    {
      if o >= 0 && o < |data| {
        offset := o;
      }
    }

    /** `read_string(o)`. */
    method ReadString(o: int) returns (s: Result<seq<Byte>, PacketError>)
      modifies this
      ensures var r := StringFrom(data, Seek(data, old(offset), o)); s == r.value && offset == r.offset
    {
      if o != -1 {
        SetOffset(o);
      }
      ghost var start := offset;
      var collected := [];
      PrependNothing(StringFrom(data, start));
      while offset < |data|
        invariant Prepend(collected, StringFrom(data, offset)) == StringFrom(data, start)
        decreases |data| - offset
      {
        if offset < -|data| {
          return Err(IndexError);
        }
        var b := if offset >= 0 then data[offset] else data[|data| + offset];
        if b == 0 {
          assert collected + [] == collected;
          offset := offset + 1;
          return Ok(collected);
        }
        PrependTwice(collected, [b], StringFrom(data, offset + 1));
        collected := collected + [b];
        offset := offset + 1;
      }
      assert collected + [] == collected;
      return Ok(collected);
    }

    /** `read_int(o)`. */
    method ReadInt(o: int) returns (v: Result<int, PacketError>)
      modifies this
      ensures var r := IntAt(data, Seek(data, old(offset), o)); v == r.value && offset == r.offset
    {
      if o != -1 {
        SetOffset(o);
      }
      if offset < 0 || offset + 4 > |data| {
        return Err(StructError);
      }
      v := Ok(Signed32(data[offset..offset + 4]));
      offset := offset + 4;
    }

    /** `read_short(o)`. */
    method ReadShort(o: int) returns (v: Result<int, PacketError>)
      modifies this
      ensures var r := ShortAt(data, Seek(data, old(offset), o)); v == r.value && offset == r.offset
    {
      if o != -1 {
        SetOffset(o);
      }
      if offset < 0 || offset + 2 > |data| {
        return Err(StructError);
      }
      v := Ok(Unsigned16(data[offset..offset + 2]));
      offset := offset + 2;
    }

    /** `read_byte(o, use_ord)`. */
    method ReadByte(o: int, useOrd: bool) returns (v: Result<Value, PacketError>)
      modifies this
      ensures var r := ByteAt(data, Seek(data, old(offset), o), useOrd); v == r.value && offset == r.offset
    {
      if o != -1 {
        SetOffset(o);
      }
      if offset >= |data| || offset < -|data| {
        return Err(IndexError);
      }
      var b := if offset >= 0 then data[offset] else data[|data| + offset];
      v := Ok(if useOrd then Number(b) else Bytes([b]));
      offset := offset + 1;
    }

    /** `read_ord(amount, o)`. */
    method ReadOrd(amount: int, o: int) returns (s: Result<string, PacketError>)
      modifies this
      ensures var r := OrdsFrom(data, Seek(data, old(offset), o), amount); s == r.value && offset == r.offset
    {
      if o != -1 {
        SetOffset(o);
      }
      ghost var start := offset;
      var left := amount;
      var text := "";
      PrependNothing(OrdsFrom(data, start, amount));
      while left > 0
        invariant Prepend(text, OrdsFrom(data, offset, left)) == OrdsFrom(data, start, amount)
        decreases left
      {
        ghost var before := offset;
        var b := ReadByte(-1, true);
        if b.Err? {
          return Err(b.error);
        }
        PrependTwice(text, NatToString(b.value.n), OrdsFrom(data, offset, left - 1));
        text := text + NatToString(b.value.n);
        left := left - 1;
      }
      assert text + "" == text;
      return Ok(text);
    }

    /** `skip(amount)`: the cursor moves by `amount` but stops at the last
        byte. */
    method Skip(amount: int)
      modifies this
      ensures offset == if old(offset) + amount < |data| - 1 then old(offset) + amount else |data| - 1
      ensures offset < |data|
    {
      offset := if |data| - 1 < offset + amount then |data| - 1 else offset + amount;
    }
  }
}
