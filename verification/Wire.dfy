/** The binary frames: a big-endian 32-bit header length, the header, a body length, the
    body. Servers and clients are parsed by two functions that should agree. */
module Wire {

  newtype byte = x: int | 0 <= x < 256

  datatype Parsed = Rejected | Accepted(cmd: seq<byte>, body: seq<byte>)

  /** What the client parser fills in: the body as text, or as bytes for a voice frame. */
  datatype Cmdline = Damaged | Cmdline(cmd: seq<byte>, params: seq<byte>, params2: seq<byte>)

  /** "vido" */
  const VIDO_CHAT: seq<byte> := [118, 105, 100, 111]

  const LIMIT := 0x8000_0000

  // ---- Lengths --------------------------------------------------------------------------

  /** binary.Read of a big-endian int32: the top bit is the sign. */
  function Int32(b: seq<byte>): int
    requires |b| == 4
  {
    var n := b[0] as int * 0x100_0000 + b[1] as int * 0x1_0000 + b[2] as int * 0x100 + b[3] as int;
    if n < LIMIT then n else n - 0x1_0000_0000
  }

  function Be32(n: nat): (b: seq<byte>)
    requires n < LIMIT
    ensures |b| == 4
  {
    [(n / 0x100_0000) as byte, (n / 0x1_0000 % 0x100) as byte, (n / 0x100 % 0x100) as byte, (n % 0x100) as byte]
  }

  lemma Int32OfBe32(n: nat)
    requires n < LIMIT
    ensures Int32(Be32(n)) == n
  {
    var a, b, c := n / 0x100, n / 0x1_0000, n / 0x100_0000;
    assert n == a * 0x100 + n % 0x100;
    assert a == b * 0x100 + a % 0x100;
    assert b == c * 0x100 + b % 0x100;
  }

  lemma Be32OfInt32(b: seq<byte>)
    requires |b| == 4 && Int32(b) >= 0
    ensures Be32(Int32(b)) == b
  {
    var n := Int32(b);
    assert n / 0x100 == b[0] as int * 0x1_0000 + b[1] as int * 0x100 + b[2] as int;
    assert n / 0x1_0000 == b[0] as int * 0x100 + b[1] as int;
    assert n / 0x100_0000 == b[0] as int;
  }

  // ---- Frames ---------------------------------------------------------------------------

  ghost predicate IsFrame(input: seq<byte>, cmd: seq<byte>, body: seq<byte>) {
    && 0 < |cmd| < LIMIT && 0 < |body| < LIMIT
    && input == Be32(|cmd|) + cmd + Be32(|body|) + body
  }

  /** A header and at most four bytes more. */
  ghost predicate IsHeader(input: seq<byte>, cmd: seq<byte>) {
    && 0 < |cmd| < LIMIT && 4 + |cmd| <= |input| <= 8 + |cmd|
    && input[..4 + |cmd|] == Be32(|cmd|) + cmd
  }

  function HeadLen(input: seq<byte>): int {
    if |input| < 4 then -1 else Int32(input[..4])
  }

  function ServerParse(input: seq<byte>): Parsed {
    var h := HeadLen(input);
    if h <= 0 || |input| <= h + 8 || |input| != h + 8 + Int32(input[h + 4..h + 8]) then Rejected
    else Accepted(input[4..h + 4], input[h + 8..])
  }

  function ClientParse(input: seq<byte>): Cmdline {
    var h := HeadLen(input);
    if h <= 0 || |input| < h + 4 then Damaged
    else if |input| <= h + 8 then Cmdline(input[4..h + 4], [], [])
    else if |input| != h + 8 + Int32(input[h + 4..h + 8]) then Damaged
    else if input[4..h + 4] == VIDO_CHAT then Cmdline(input[4..h + 4], [], input[h + 8..])
    else Cmdline(input[4..h + 4], input[h + 8..], [])
  }

  /** The peer parser: every slice is in range whatever the input. */
  method NewServerCmdline(input: seq<byte>) returns (r: Parsed)
    ensures r == ServerParse(input)
  {
    if |input| < 4 {
      return Rejected;
    }
    var headLen := Int32(input[..4]);
    if headLen <= 0 {
      return Rejected;
    }
    if |input| < headLen + 4 {
      return Rejected;
    }
    var cmd := input[4..headLen + 4];
    if |input| <= 4 + headLen + 4 {
      return Rejected;
    }
    var bodyLen := Int32(input[headLen + 4..headLen + 4 + 4]);
    if |input| != 4 + headLen + 4 + bodyLen {
      return Rejected;
    }
    return Accepted(cmd, input[4 + headLen + 4..4 + headLen + 4 + bodyLen]);
  }

  /** The client parser. */
  method NewCmdline(input: seq<byte>) returns (r: Cmdline)
    ensures r == ClientParse(input)
  {
    if |input| < 4 {
      return Damaged;
    }
    var headL := Int32(input[..4]);
    if headL <= 0 {
      return Damaged;
    }
    if |input| < headL + 4 {
      return Damaged;
    }
    var cmd := input[4..headL + 4];
    var params: seq<byte> := [];
    var params2: seq<byte> := [];
    if |input| > headL + 4 + 4 {
      var bodyL := Int32(input[headL + 4..headL + 4 + 4]);
      if |input| != headL + 4 + 4 + bodyL {
        return Damaged;
      }
      if cmd == VIDO_CHAT {
        params2 := input[headL + 4 + 4..headL + 4 + 4 + bodyL];
      } else {
        params := input[headL + 4 + 4..headL + 4 + 4 + bodyL];
      }
    }
    return Cmdline(cmd, params, params2);
  }

  // ---- What is accepted -----------------------------------------------------------------

  /** Positions in an encoded frame. */
  lemma FrameParts(input: seq<byte>, cmd: seq<byte>, body: seq<byte>)
    requires IsFrame(input, cmd, body)
    ensures |input| == 8 + |cmd| + |body|
    ensures input[..4] == Be32(|cmd|) && input[4..|cmd| + 4] == cmd
    ensures input[|cmd| + 4..|cmd| + 8] == Be32(|body|) && input[|cmd| + 8..] == body
  {
  }

  lemma FrameOfParts(input: seq<byte>, h: nat)
    requires 4 <= h + 4 <= h + 8 <= |input|
    ensures input == input[..4] + input[4..h + 4] + input[h + 4..h + 8] + input[h + 8..]
  {
  }

  /** The peer parser accepts exactly the encodings of a non-empty header and body, and
      returns what was encoded. */
  lemma ServerExact(input: seq<byte>, cmd: seq<byte>, body: seq<byte>)
    ensures ServerParse(input) == Accepted(cmd, body) <==> IsFrame(input, cmd, body)
  {
    if IsFrame(input, cmd, body) {
      FrameParts(input, cmd, body);
      Int32OfBe32(|cmd|);
      Int32OfBe32(|body|);
    }
    if ServerParse(input) == Accepted(cmd, body) {
      var h := HeadLen(input);
      FrameOfParts(input, h);
      Be32OfInt32(input[..4]);
      Be32OfInt32(input[h + 4..h + 8]);
      assert |cmd| == h && |body| == Int32(input[h + 4..h + 8]);
    }
  }

  lemma HeaderExact(input: seq<byte>, cmd: seq<byte>)
    ensures IsHeader(input, cmd) <==>
            var h := HeadLen(input);
            h > 0 && h + 4 <= |input| <= h + 8 && cmd == input[4..h + 4]
  {
    if IsHeader(input, cmd) {
      Int32OfBe32(|cmd|);
      assert input[..4] == input[..4 + |cmd|][..4] == Be32(|cmd|);
      assert input[4..4 + |cmd|] == input[..4 + |cmd|][4..] == cmd;
    }
    var h := HeadLen(input);
    if h > 0 && h + 4 <= |input| <= h + 8 && cmd == input[4..h + 4] {
      Be32OfInt32(input[..4]);
      assert input[..4 + h] == input[..4] + input[4..h + 4];
    }
  }

  /** Whatever the peer parser accepts, the client parser accepts, with the same command and
      body; beyond that it accepts exactly a header followed by at most four bytes, which it
      ignores. */
  lemma ClientExact(input: seq<byte>, cmd: seq<byte>, body: seq<byte>)
    ensures ServerParse(input) == Accepted(cmd, body) ==>
              ClientParse(input) == if cmd == VIDO_CHAT then Cmdline(cmd, [], body) else Cmdline(cmd, body, [])
    ensures ServerParse(input) == Rejected ==>
              (ClientParse(input) == Cmdline(cmd, [], []) <==> IsHeader(input, cmd))
    ensures ServerParse(input) == Rejected && ClientParse(input).Cmdline? ==>
              ClientParse(input) == Cmdline(ClientParse(input).cmd, [], [])
  {
    HeaderExact(input, cmd);
  }

  // ---- Byte order -----------------------------------------------------------------------

  /** Bytes read one after another, each worth less than the one before. */
  function Value(b: seq<byte>): nat {
    if b == [] then 0 else 0x100 * Value(b[..|b| - 1]) + b[|b| - 1] as int
  }

  /** A length is big-endian, in two's complement. */
  lemma BigEndian(b: seq<byte>)
    requires |b| == 4
    ensures Int32(b) == if b[0] < 0x80 then Value(b) else Value(b) - 0x1_0000_0000
  {
    var c, d, e := b[..3], b[..2], b[..1];
    assert c[..2] == d && d[..1] == e && e[..0] == [];
    assert Value(e) == b[0] as int && Value(d) == 0x100 * Value(e) + b[1] as int;
    assert Value(c) == 0x100 * Value(d) + b[2] as int;
  }
}
