/**
 * The length-prefixed frame codec of network/parser.go.
 *
 * A frame is a length field of 1, 2 or 4 bytes, in big- or little-endian
 * order, followed by a payload. The length counts the payload bytes after an
 * id prefix of `lenMsgId` bytes; the id prefix stays in the payload handed to
 * the router's `Unmarshal`.
 *
 * The parser's settings live in the `MsgParser` object; reading and writing a
 * frame are pure functions of a snapshot of those settings (`Config`) and of
 * the bytes. A reader is modelled as the sequence of bytes still to come; a
 * successful read reports how many of them it consumed.
 */
module Parser {
  import opened Network

  predicate ValidWidth(w: int) {
    w == 1 || w == 2 || w == 4
  }

  /** 256 to the power n: one more than the largest value n bytes hold. */
  function Pow256(n: nat): (r: nat)
    ensures r >= 1
  {
    if n == 0 then 1 else 256 * Pow256(n - 1)
  }

  lemma Pow256Widths()
    ensures Pow256(1) == 0x100 && Pow256(2) == 0x1_0000 && Pow256(4) == Two32
  {
    assert Pow256(2) == 256 * Pow256(1);
    assert Pow256(4) == 256 * Pow256(3);
  }

  /** The `math.MaxUint8/16/32` constant chosen for a length-field width. */
  function MaxForWidth(w: int): (r: uint32)
    requires ValidWidth(w)
    ensures r == Pow256(w) - 1
  {
    Pow256Widths();
    if w == 1 then 0xFF else if w == 2 then 0xFFFF else 0xFFFF_FFFF
  }

  // ---------------------------------------------------------------------
  // Reference meaning of a byte string as an unsigned number.

  /** The unsigned number whose base-256 digits are `bs`, most significant first. */
  function BigEndian(bs: Bytes): nat
  {
    if bs == [] then 0 else BigEndian(bs[..|bs| - 1]) * 256 + bs[|bs| - 1]
  }

  /** The unsigned number whose base-256 digits are `bs`, least significant first. */
  function LittleEndian(bs: Bytes): nat
  {
    if bs == [] then 0 else bs[0] + 256 * LittleEndian(bs[1..])
  }

  // ---------------------------------------------------------------------
  // Parser settings.

  /** A snapshot of the fields of a `MsgParser`. */
  datatype Config = Config(littleEndian: bool, lenMsgLen: uint8, lenMsgId: uint8, maxMsgLen: uint32)

  /** The unsigned value a length field holds, read in the configured order. */
  function FieldValue(c: Config, field: Bytes): nat
  {
    if c.littleEndian then LittleEndian(field) else BigEndian(field)
  }

  /**
   * The settings a `MsgParser` can reach from its zero value through
   * `SetByteOrder` and `SetMsgLen`: each width is unset (0) or 1, 2 or 4, and
   * the maximum length is the largest value of the length field.
   */
  predicate Consistent(c: Config)
  {
    && (c.lenMsgLen == 0 || ValidWidth(c.lenMsgLen))
    && (c.lenMsgId == 0 || ValidWidth(c.lenMsgId))
    && c.maxMsgLen == (if c.lenMsgLen == 0 then 0 else MaxForWidth(c.lenMsgLen))
  }

  class MsgParser {
    var littleEndian: bool
    var lenMsgLen: uint8
    var lenMsgId: uint8
    var maxMsgLen: uint32

    /** A parser as Go's zero value `MsgParser{}` leaves it. */
    constructor ()
      ensures Cfg() == Config(false, 0, 0, 0)
      ensures Consistent(Cfg())
    {
      littleEndian, lenMsgLen, lenMsgId, maxMsgLen := false, 0, 0, 0;
    }

    function Cfg(): Config
      reads this
    {
      Config(littleEndian, lenMsgLen, lenMsgId, maxMsgLen)
    }

    method SetByteOrder(littleEndian: bool)
      modifies this`littleEndian
      ensures Cfg() == old(Cfg()).(littleEndian := littleEndian)
      ensures Consistent(old(Cfg())) ==> Consistent(Cfg())
    {
      this.littleEndian := littleEndian;
    }

    /**
     * Each width is taken only when it is 1, 2 or 4; otherwise that field
     * keeps its previous value. The maximum length then follows the (possibly
     * unchanged) length width, and stays as it was while that width is unset.
     */
    method SetMsgLen(lenMsgLen: int, lenMsgId: int)
      modifies this`lenMsgLen, this`lenMsgId, this`maxMsgLen
      ensures this.lenMsgLen == if ValidWidth(lenMsgLen) then lenMsgLen else old(this.lenMsgLen)
      ensures this.lenMsgId == if ValidWidth(lenMsgId) then lenMsgId else old(this.lenMsgId)
      ensures ValidWidth(this.lenMsgLen) ==> maxMsgLen == Pow256(this.lenMsgLen) - 1
      ensures !ValidWidth(this.lenMsgLen) ==> maxMsgLen == old(maxMsgLen)
      ensures Consistent(old(Cfg())) ==> Consistent(Cfg())
    {
      if ValidWidth(lenMsgLen) {
        this.lenMsgLen := lenMsgLen;
      }
      if ValidWidth(lenMsgId) {
        this.lenMsgId := lenMsgId;
      }
      if ValidWidth(this.lenMsgLen) {
        maxMsgLen := MaxForWidth(this.lenMsgLen);
      }
    }
  }

  // ---------------------------------------------------------------------
  // The length field.

  lemma BigEndian2(h: Bytes)
    requires |h| == 2
    ensures BigEndian(h) == h[0] as int * 0x100 + h[1]
  {
    assert h[..1][..0] == [];
    assert BigEndian(h[..1]) == h[0];
  }

  lemma BigEndian4(h: Bytes)
    requires |h| == 4
    ensures BigEndian(h) == h[0] as int * 0x100_0000 + h[1] as int * 0x1_0000 + h[2] as int * 0x100 + h[3]
  {
    assert h[..3][..2] == h[..2];
    BigEndian2(h[..2]);
  }

  lemma LittleEndian4(h: Bytes)
    requires |h| == 4
    ensures LittleEndian(h) == h[3] as int * 0x100_0000 + h[2] as int * 0x1_0000 + h[1] as int * 0x100 + h[0]
  {
    assert h[1..][1..] == h[2..];
    assert h[2..][1..] == h[3..];
    assert h[3..][1..] == [];
    assert LittleEndian(h[3..]) == h[3];
    assert LittleEndian(h[2..]) == h[2] + 256 * h[3] as int;
    assert LittleEndian(h[1..]) == h[1] + 256 * (h[2] + 256 * h[3] as int);
  }

  lemma LittleEndian2(h: Bytes)
    requires |h| == 2
    ensures LittleEndian(h) == h[1] as int * 0x100 + h[0]
  {
    assert h[1..][1..] == [];
    assert LittleEndian(h[1..]) == h[1];
  }

  /** The four byte-extractions `PutUint32` performs spell `n` back in either order. */
  lemma Digits4(n: uint32)
    ensures BigEndian([(n / 0x100_0000) % 0x100, (n / 0x1_0000) % 0x100, (n / 0x100) % 0x100, n % 0x100]) == n
    ensures LittleEndian([n % 0x100, (n / 0x100) % 0x100, (n / 0x1_0000) % 0x100, (n / 0x100_0000) % 0x100]) == n
  {
    BigEndian4([(n / 0x100_0000) % 0x100, (n / 0x1_0000) % 0x100, (n / 0x100) % 0x100, n % 0x100]);
    LittleEndian4([n % 0x100, (n / 0x100) % 0x100, (n / 0x1_0000) % 0x100, (n / 0x100_0000) % 0x100]);
    NextByte(n, 0x100);
    NextByte(n, 0x1_0000);
    NextByte(n, 0x100_0000);
    assert n % 0x1_0000_0000 == n;
  }

  /**
   * One more byte of `x` below the weight `k`: the remainder modulo 256k is
   * the byte at weight k, shifted, plus the remainder modulo k.
   */
  lemma NextByte(x: nat, k: nat)
    requires k == 0x100 || k == 0x1_0000 || k == 0x100_0000
    ensures x % (0x100 * k) == (x / k) % 0x100 * k + x % k
  {
    var q, s := x / (0x100 * k), x % (0x100 * k);
    assert x == 0x100 * k * q + s;
    var t, u := s / k, s % k;
    assert s == k * t + u && t < 0x100;
    assert x == k * (0x100 * q + t) + u;
    assert x / k == 0x100 * q + t by {
      DivUnique(x, k, 0x100 * q + t, u);
    }
    assert x % k == u by {
      DivUnique(x, k, 0x100 * q + t, u);
    }
    assert (0x100 * q + t) % 0x100 == t;
  }

  lemma DivUnique(y: int, k: int, q: int, r: int)
    requires k == 0x100 || k == 0x1_0000 || k == 0x100_0000
    requires 0 <= r < k && y == k * q + r
    ensures y / k == q && y % k == r
  {
    if k == 0x100 {
      assert y == 0x100 * q + r;
    } else if k == 0x1_0000 {
      assert y == 0x1_0000 * q + r;
    } else {
      assert y == 0x100_0000 * q + r;
    }
  }

  /** The two byte-extractions `PutUint16` performs spell `v` back in either order. */
  lemma Digits2(v: int)
    requires 0 <= v < 0x1_0000
    ensures BigEndian([(v / 0x100) % 0x100, v % 0x100]) == v
    ensures LittleEndian([v % 0x100, (v / 0x100) % 0x100]) == v
  {
    BigEndian2([(v / 0x100) % 0x100, v % 0x100]);
    LittleEndian2([v % 0x100, (v / 0x100) % 0x100]);
  }

  lemma OneByte(h: Bytes)
    requires |h| == 1
    ensures BigEndian(h) == h[0] && LittleEndian(h) == h[0]
  {
    assert h[..0] == [] && h[1..] == [];
  }

  /**
   * Decoding of the length field: the single byte for width 1, the unsigned
   * number the bytes spell in the configured order for widths 2 and 4, and 0
   * for a width the parser was never given.
   */
  function DecodeLen(c: Config, header: Bytes): (n: uint32)
    requires |header| == c.lenMsgLen
    ensures ValidWidth(c.lenMsgLen) ==> n == FieldValue(c, header) && n < Pow256(c.lenMsgLen)
    ensures !ValidWidth(c.lenMsgLen) ==> n == 0
  {
    if c.lenMsgLen == 1 then
      OneByte(header);
      Pow256Widths();
      header[0]
    else if c.lenMsgLen == 2 then
      BigEndian2(header);
      LittleEndian2(header);
      Pow256Widths();
      if c.littleEndian then header[1] as int * 0x100 + header[0]
      else header[0] as int * 0x100 + header[1]
    else if c.lenMsgLen == 4 then
      BigEndian4(header);
      LittleEndian4(header);
      Pow256Widths();
      if c.littleEndian then
        header[3] as int * 0x100_0000 + header[2] as int * 0x1_0000 + header[1] as int * 0x100 + header[0]
      else
        header[0] as int * 0x100_0000 + header[1] as int * 0x1_0000 + header[2] as int * 0x100 + header[3]
    else
      0
  }

  /**
   * Encoding of the length field (`buf[0] = byte(n)`, `PutUint16(uint16(n))`,
   * `PutUint32(n)`): the low bytes of `n` that fit the width, in the
   * configured order; a width the parser was never given yields that many
   * zero bytes, as the freshly made buffer holds.
   */
  function EncodeLen(c: Config, n: uint32): (field: Bytes)
    ensures |field| == c.lenMsgLen
    ensures ValidWidth(c.lenMsgLen) ==> FieldValue(c, field) == n % Pow256(c.lenMsgLen)
    ensures !ValidWidth(c.lenMsgLen) ==> forall i :: 0 <= i < |field| ==> field[i] == 0
  {
    if c.lenMsgLen == 1 then
      var field := [n % 0x100];
      OneByte(field);
      Pow256Widths();
      field
    else if c.lenMsgLen == 2 then
      var v := n % 0x1_0000;
      Digits2(v);
      Pow256Widths();
      if c.littleEndian then [v % 0x100, (v / 0x100) % 0x100]
      else [(v / 0x100) % 0x100, v % 0x100]
    else if c.lenMsgLen == 4 then
      Digits4(n);
      Pow256Widths();
      if c.littleEndian
      then [n % 0x100, (n / 0x100) % 0x100, (n / 0x1_0000) % 0x100, (n / 0x100_0000) % 0x100]
      else [(n / 0x100_0000) % 0x100, (n / 0x1_0000) % 0x100, (n / 0x100) % 0x100, n % 0x100]
    else
      seq(c.lenMsgLen, _ => 0)
  }

  /** Decoding a field written by `EncodeLen` gives back the encoded value, reduced to the width. */
  lemma DecodeEncodeLen(c: Config, n: uint32)
    requires ValidWidth(c.lenMsgLen)
    ensures DecodeLen(c, EncodeLen(c, n)) == n % Pow256(c.lenMsgLen)
  {
  }

  /**
   * For a parser configured through `SetMsgLen` the decoded length never
   * exceeds `maxMsgLen`: the "message too long" branch of `ReadMsg` cannot
   * be taken.
   */
  lemma DecodedLenWithinMax(c: Config, header: Bytes)
    requires Consistent(c) && |header| == c.lenMsgLen
    ensures DecodeLen(c, header) <= c.maxMsgLen
  {
  }

  // ---------------------------------------------------------------------
  // Reading a frame.

  datatype ReadError = ShortHeader | TooLong | ShortPayload | UnmarshalFailed

  /** The outcome of a read: a value and the number of input bytes it consumed, or an error. */
  datatype Read<T> = Ok(value: T, consumed: nat) | Err(error: ReadError)

  /**
   * The frame part of `ReadMsg`: read the length field, reject a length above
   * `maxMsgLen`, then read exactly `msgLen + lenMsgId` payload bytes. A short
   * read of either part is an error. This is the corrected definition: the
   * payload size is computed without the 32-bit wrap-around of the source
   * (see `ReadFrameAsWritten`).
   */
  function ReadFrame(c: Config, input: Bytes): (r: Read<Bytes>)
    ensures r.Err? ==> r.error != UnmarshalFailed
    ensures r == Err(ShortHeader) <==> |input| < c.lenMsgLen
    ensures r.Ok? ==> (c.lenMsgLen <= |input|
      && |r.value| == DecodeLen(c, input[..c.lenMsgLen]) + c.lenMsgId
      && r.consumed == c.lenMsgLen + |r.value| && r.consumed <= |input|
      && r.value == input[c.lenMsgLen..r.consumed])
    ensures c.lenMsgLen <= |input| ==>
      (r.Ok? <==> DecodeLen(c, input[..c.lenMsgLen]) <= c.maxMsgLen
                  && c.lenMsgLen + DecodeLen(c, input[..c.lenMsgLen]) + c.lenMsgId <= |input|)
  {
    if |input| < c.lenMsgLen then Err(ShortHeader)
    else
      var msgLen := DecodeLen(c, input[..c.lenMsgLen]);
      if msgLen > c.maxMsgLen then Err(TooLong)
      else
        var size := msgLen + c.lenMsgId;
        if |input| - c.lenMsgLen < size then Err(ShortPayload)
        else Ok(input[c.lenMsgLen..c.lenMsgLen + size], c.lenMsgLen + size)
  }

  /**
   * `ReadMsg`: read one frame and hand its whole payload, id prefix
   * included, to the router's `Unmarshal`. When the frame cannot be read,
   * `Unmarshal` is not consulted.
   */
  function ReadMsg<M>(c: Config, p: Processor<M>, input: Bytes): (r: Read<M>)
    ensures ReadFrame(c, input).Err? ==> r == Err(ReadFrame(c, input).error)
    ensures ReadFrame(c, input).Ok? ==>
      var f := ReadFrame(c, input);
      match p.unmarshal(f.value)
      case None => r == Err(UnmarshalFailed)
      case Some(m) => r == Ok(m, f.consumed)
  {
    match ReadFrame(c, input)
    case Err(e) => Err(e)
    case Ok(payload, n) =>
      match p.unmarshal(payload)
      case None => Err(UnmarshalFailed)
      case Some(m) => Ok(m, n)
  }

  /**
   * A short read, of the header or of the payload, fails the same way
   * whatever the router: `Unmarshal` is never called.
   */
  lemma ShortReadSkipsUnmarshal<M>(c: Config, p1: Processor<M>, p2: Processor<M>, input: Bytes)
    requires |input| < c.lenMsgLen
      || (c.lenMsgLen <= |input| && c.lenMsgLen + DecodeLen(c, input[..c.lenMsgLen]) + c.lenMsgId > |input|)
    ensures ReadMsg(c, p1, input).Err? && ReadMsg(c, p1, input) == ReadMsg(c, p2, input)
    ensures ReadMsg(c, p1, input).error in {ShortHeader, ShortPayload, TooLong}
  {
  }

  // ---------------------------------------------------------------------
  // Writing a frame.

  /** The value `WriteMsg` puts in the length field: `uint32(len(data)) - uint32(lenMsgId)`, wrapping. */
  function LengthField(c: Config, data: Bytes): (n: uint32)
    ensures n == (|data| - c.lenMsgId) % Two32
    ensures c.lenMsgId <= |data| < Two32 ==> n == |data| - c.lenMsgId
  {
    // ToUint32(|data|) - lenMsgId differs from |data| - lenMsgId by a multiple of 2^32
    LowBytesIgnoreWrap(|data| - c.lenMsgId, -(|data| / Two32), 4);
    Pow256Widths();
    ToUint32(ToUint32(|data|) - c.lenMsgId)
  }

  /** Adding a multiple of 2^32 does not change the low bytes. */
  lemma LowBytesIgnoreWrap(x: int, j: int, w: int)
    requires ValidWidth(w)
    ensures (x + Two32 * j) % Pow256(w) == x % Pow256(w)
  {
    Pow256Widths();
    var y := x + Two32 * j;
    if w == 1 {
      var q, r := x / 0x100, x % 0x100;
      assert y == 0x100 * (q + 0x100_0000 * j) + r;
      assert y % 0x100 == r;
    } else if w == 2 {
      var q, r := x / 0x1_0000, x % 0x1_0000;
      assert y == 0x1_0000 * (q + 0x1_0000 * j) + r;
      assert y % 0x1_0000 == r;
    } else {
      var q, r := x / Two32, x % Two32;
      assert y == Two32 * (q + j) + r;
      assert y % Two32 == r;
    }
  }

  /**
   * `WriteMsg`: marshal the message, then prepend a `lenMsgLen`-byte field
   * holding `len(data) - lenMsgId` (taken modulo 2^32, then truncated to the
   * width) to the marshalled bytes, which follow unchanged. A `Marshal`
   * failure yields no bytes.
   */
  function WriteMsg<M>(c: Config, p: Processor<M>, msg: M): (r: Option<Bytes>)
    ensures r.Some? <==> p.marshal(msg).Some?
    ensures r.Some? ==>
      var data := p.marshal(msg).value;
      && |r.value| == c.lenMsgLen + |data|
      && r.value[c.lenMsgLen..] == data
      && (ValidWidth(c.lenMsgLen) ==>
            FieldValue(c, r.value[..c.lenMsgLen]) == (|data| - c.lenMsgId) % Pow256(c.lenMsgLen))
  {
    match p.marshal(msg)
    case None => None
    case Some(data) =>
      var header := EncodeLen(c, LengthField(c, data));
      assert (header + data)[..c.lenMsgLen] == header;
      LengthFieldLowBytes(c, data);
      Some(header + data)
  }

  /** The low bytes of the wrapped length field are those of `len(data) - lenMsgId` itself. */
  lemma LengthFieldLowBytes(c: Config, data: Bytes)
    ensures ValidWidth(c.lenMsgLen) ==>
      LengthField(c, data) % Pow256(c.lenMsgLen) == (|data| - c.lenMsgId) % Pow256(c.lenMsgLen)
  {
    if ValidWidth(c.lenMsgLen) {
      var n, k, w := |data|, c.lenMsgId as int, c.lenMsgLen as int;
      var inner := ToUint32(n) - k;
      // LengthField = inner - 2^32 * (inner / 2^32), and ToUint32(n) = n - 2^32 * (n / 2^32)
      assert LengthField(c, data) == inner + Two32 * (-(inner / Two32));
      LowBytesIgnoreWrap(inner, -(inner / Two32), w);
      assert inner == (n - k) + Two32 * (-(n / Two32));
      LowBytesIgnoreWrap(n - k, -(n / Two32), w);
    }
  }

  /**
   * Round trip: when the marshalled bytes hold at least the id prefix and
   * their length fits the field, reading `WriteMsg`'s output (followed by any
   * further bytes of the stream) consumes exactly that output and yields
   * exactly the marshalled bytes as the payload.
   */
  lemma {:induction false} FrameRoundTrip<M>(c: Config, p: Processor<M>, msg: M, rest: Bytes)
    requires Consistent(c) && ValidWidth(c.lenMsgLen)
    requires p.marshal(msg).Some?
    requires c.lenMsgId <= |p.marshal(msg).value|
    requires |p.marshal(msg).value| - c.lenMsgId <= c.maxMsgLen
    ensures WriteMsg(c, p, msg).Some?
    ensures ReadFrame(c, WriteMsg(c, p, msg).value + rest)
         == Ok(p.marshal(msg).value, c.lenMsgLen + |p.marshal(msg).value|)
  {
    var data := p.marshal(msg).value;
    var out := WriteMsg(c, p, msg).value;
    var input := out + rest;
    var w := c.lenMsgLen;
    var n := |data| - c.lenMsgId;
    assert input[..w] == out[..w];
    assert n % Pow256(w) == n by {
      assert 0 <= n < Pow256(w);
      SmallMod(n, Pow256(w));
    }
    assert DecodeLen(c, input[..w]) == n;
    assert input[w..w + |data|] == data by {
      assert out[w..] == data;
      assert input[w..w + |data|] == out[w..];
    }
  }

  lemma SmallMod(n: int, m: int)
    requires 0 <= n < m
    ensures n % m == n
  {
  }

  /** The round trip carried through the router: `Unmarshal` receives the marshalled bytes. */
  lemma WriteThenReadMsg<M>(c: Config, p: Processor<M>, msg: M, rest: Bytes)
    requires Consistent(c) && ValidWidth(c.lenMsgLen)
    requires p.marshal(msg).Some?
    requires c.lenMsgId <= |p.marshal(msg).value|
    requires |p.marshal(msg).value| - c.lenMsgId <= c.maxMsgLen
    ensures WriteMsg(c, p, msg).Some?
    ensures var data := p.marshal(msg).value;
      ReadMsg(c, p, WriteMsg(c, p, msg).value + rest)
        == match p.unmarshal(data)
           case None => Err(UnmarshalFailed)
           case Some(m) => Ok(m, c.lenMsgLen + |data|)
  {
    FrameRoundTrip(c, p, msg, rest);
  }

  /**
   * The length field wraps instead of failing: with a 1-byte field, 256
   * payload bytes after the id are announced as 0, so the reader takes only
   * the id prefix as the frame.
   */
  lemma OversizeFrameIsTruncated(p: Processor<Bytes>, msg: Bytes)
    requires p.marshal(msg) == Some(seq(257, _ => 7))
    ensures var c := Config(false, 1, 1, 0xFF);
      WriteMsg(c, p, msg).Some?
      && ReadFrame(c, WriteMsg(c, p, msg).value) == Ok([7], 2)
  {
    var c := Config(false, 1, 1, 0xFF);
    var data := seq(257, _ => 7);
    var out := WriteMsg(c, p, msg).value;
    assert out[..1] == [0] by {
      assert FieldValue(c, out[..1]) == 0;
      assert out[..1][..0] == [];
    }
    assert out[1..2] == [7] by {
      assert out[1..] == data;
      assert out[1..2] == data[..1];
    }
  }

  // ---------------------------------------------------------------------
  // The source's payload size, with its 32-bit wrap-around.

  /**
   * `ReadMsg`'s frame part as written: the payload buffer is
   * `make([]byte, msgLen + uint32(lenMsgId))`, whose size is a `uint32` sum
   * and wraps past 2^32 - 1.
   */
  function ReadFrameAsWritten(c: Config, input: Bytes): (r: Read<Bytes>)
    ensures r.Ok? ==> (c.lenMsgLen <= |input|
      && |r.value| == ToUint32(DecodeLen(c, input[..c.lenMsgLen]) + c.lenMsgId)
      && r.consumed == c.lenMsgLen + |r.value| && r.consumed <= |input|
      && r.value == input[c.lenMsgLen..r.consumed])
  {
    if |input| < c.lenMsgLen then Err(ShortHeader)
    else
      var msgLen := DecodeLen(c, input[..c.lenMsgLen]);
      if msgLen > c.maxMsgLen then Err(TooLong)
      else
        var size := ToUint32(msgLen + c.lenMsgId);
        if |input| - c.lenMsgLen < size then Err(ShortPayload)
        else Ok(input[c.lenMsgLen..c.lenMsgLen + size], c.lenMsgLen + size)
  }

  /** The two readers agree whenever the payload size fits 32 bits, so always for widths 1 and 2. */
  lemma AsWrittenAgreesWithoutWrap(c: Config, input: Bytes)
    requires c.lenMsgLen <= |input| ==> DecodeLen(c, input[..c.lenMsgLen]) + c.lenMsgId < Two32
    ensures ReadFrameAsWritten(c, input) == ReadFrame(c, input)
  {
  }

  lemma NarrowFieldsNeverWrap(c: Config, input: Bytes)
    requires Consistent(c) && c.lenMsgLen != 4
    ensures ReadFrameAsWritten(c, input) == ReadFrame(c, input)
  {
    if c.lenMsgLen <= |input| {
      var n := DecodeLen(c, input[..c.lenMsgLen]);
      assert n <= 0xFFFF;
    }
  }

  /**
   * The wrap-around in action: a 4-byte big-endian field announcing
   * 0xFFFFFFFF with a 2-byte id makes the source read a 1-byte payload and
   * treat the frame as complete, where 2^32 + 1 payload bytes were announced.
   */
  lemma PayloadSizeWraps()
    ensures var c := Config(false, 4, 2, 0xFFFF_FFFF);
      var input := [0xFF, 0xFF, 0xFF, 0xFF, 7];
      ReadFrameAsWritten(c, input) == Ok([7], 5)
      && ReadFrame(c, input) == Err(ShortPayload)
  {
    var c := Config(false, 4, 2, 0xFFFF_FFFF);
    var input: Bytes := [0xFF, 0xFF, 0xFF, 0xFF, 7];
    assert input[..4] == [0xFF, 0xFF, 0xFF, 0xFF];
    assert DecodeLen(c, input[..4]) == 0xFFFF_FFFF;
    assert input[4..5] == [7];
  }
}
