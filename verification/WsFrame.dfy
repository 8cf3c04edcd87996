/** WebSocket text frames as the server writes them, and as section 5.2 of RFC 6455 reads them. */
module WsFrame {
  import opened Wrappers

  type Byte = b: int | 0 <= b < 256

  // ---- Big-endian integers ----

  function Power(k: nat): nat { if k == 0 then 1 else 256 * Power(k - 1) }

  /** n in k bytes, most significant first. */
  function ToBytes(n: nat, k: nat): (s: seq<Byte>)
    ensures |s| == k
  {
    if k == 0 then [] else ToBytes(n / 256, k - 1) + [n % 256]
  }

  function FromBytes(s: seq<Byte>): nat
  {
    if |s| == 0 then 0 else 256 * FromBytes(s[..|s| - 1]) + s[|s| - 1]
  }

  lemma {:induction false} BytesRoundTrip(n: nat, k: nat)
    requires n < Power(k)
    ensures FromBytes(ToBytes(n, k)) == n
  {
    if k > 0 {
      BytesRoundTrip(n / 256, k - 1);
      var s := ToBytes(n, k);
      assert s[..|s| - 1] == ToBytes(n / 256, k - 1);
    }
  }

  lemma Powers()
    ensures Power(2) == 0x10000 && Power(8) == 0x1_0000_0000_0000_0000
  {
    assert Power(4) == 0x1_0000_0000;
    assert Power(6) == 0x1_0000_0000_0000;
  }

  // ---- Writing ----

  const FIN_TEXT: Byte := 0x81

  function Header(n: nat): seq<Byte>
  {
    if n < 126 then [FIN_TEXT, n]
    else if n < 65536 then [FIN_TEXT, 126] + ToBytes(n, 2)
    else [FIN_TEXT, 127] + ToBytes(n, 8)
  }

  function Frame(data: seq<Byte>): seq<Byte> { Header(|data|) + data }

  /** Write a k-byte big-endian integer into a buffer. */
  method WriteUInt(buffer: array<Byte>, at: nat, n: nat, k: nat)
    requires at + k <= buffer.Length
    modifies buffer
    ensures buffer[at..at + k] == ToBytes(n, k)
    ensures buffer[..at] == old(buffer[..at]) && buffer[at + k..] == old(buffer[at + k..])
  {
    var rest, i := n, k;
    while i > 0
      invariant 0 <= i <= k
      invariant ToBytes(n, k) == ToBytes(rest, i) + buffer[at + i..at + k]
      invariant buffer[..at] == old(buffer[..at]) && buffer[at + k..] == old(buffer[at + k..])
    {
      buffer[at + i - 1] := rest % 256;
      rest := rest / 256;
      i := i - 1;
    }
    assert ToBytes(rest, 0) == [];
  }

  /** The header is allocated in one of three sizes and filled byte by byte. */
  method SendWsText(data: seq<Byte>) returns (written: seq<Byte>)
    ensures written == Frame(data)
  {
    hide ToBytes;
    var n := |data|;
    var header: array<Byte>;
    if n < 126 {
      header := new Byte[2];
      header[0] := FIN_TEXT;
      header[1] := n;
      assert header[..] == Header(n);
    } else if n < 65536 {
      header := new Byte[4];
      header[0] := FIN_TEXT;
      header[1] := 126;
      WriteUInt(header, 2, n, 2);
      assert header[..] == header[..2] + header[2..4];
    } else {
      header := new Byte[10];
      header[0] := FIN_TEXT;
      header[1] := 127;
      WriteUInt(header, 2, n, 8);
      assert header[..] == header[..2] + header[2..10];
    }
    written := header[..] + data;
  }

  // ---- Reading: an unmasked, final text frame, 0x81 being FIN and opcode 1 ----

  /** The payload length and where the payload starts; None unless the length is there and encoded in
      the fewest bytes. */
  function ReadLength(s: seq<Byte>): Option<(nat, nat)>
    requires |s| >= 2
  {
    if s[1] < 126 then Some((s[1], 2))
    else if s[1] == 126 then
      if |s| < 4 then None
      else (var n := FromBytes(s[2..4]); if n < 126 then None else Some((n, 4)))
    else if s[1] == 127 then
      if |s| < 10 then None
      else (var n := FromBytes(s[2..10]); if n < 0x10000 || n >= 0x8000_0000_0000_0000 then None else Some((n, 10)))
    else None
  }

  /** One frame off the front of a stream: its payload and what is left. */
  function ReadFrame(s: seq<Byte>): (r: Option<(seq<Byte>, seq<Byte>)>)
    ensures r.Some? ==> |r.value.1| < |s|
  {
    if |s| < 2 || s[0] != 0x81 then None
    else match ReadLength(s)
      case None => None
      case Some((n, start)) => if |s| < start + n then None else Some((s[start..start + n], s[start + n..]))
  }

  function ReadStream(s: seq<Byte>): Option<seq<seq<Byte>>>
    decreases |s|
  {
    if |s| == 0 then Some([])
    else match ReadFrame(s)
      case None => None
      case Some((data, rest)) =>
        match ReadStream(rest) case None => None case Some(more) => Some([data] + more)
  }

  lemma HeaderRead(n: nat, rest: seq<Byte>)
    requires n < 0x8000_0000_0000_0000
    ensures var s := Header(n) + rest; |s| >= 2 && s[0] == 0x81 && ReadLength(s) == Some((n, |Header(n)|))
  {
    Powers();
    var s := Header(n) + rest;
    if n >= 65536 {
      BytesRoundTrip(n, 8);
      assert s[2..10] == ToBytes(n, 8);
    } else if n >= 126 {
      BytesRoundTrip(n, 2);
      assert s[2..4] == ToBytes(n, 2);
    }
  }

  /** A frame, whatever follows it, is read back as its payload, from the shortest length encoding. */
  lemma FrameRoundTrip(data: seq<Byte>, rest: seq<Byte>)
    requires |data| < 0x8000_0000_0000_0000
    ensures ReadFrame(Frame(data) + rest) == Some((data, rest))
  {
    var s := Frame(data) + rest;
    var h := |Header(|data|)|;
    assert s == Header(|data|) + (data + rest);
    HeaderRead(|data|, data + rest);
    hide ReadLength, Header;
    assert s[h..h + |data|] == data && s[h + |data|..] == rest;
  }

  function Stream(messages: seq<seq<Byte>>): seq<Byte>
  {
    if |messages| == 0 then [] else Frame(messages[0]) + Stream(messages[1..])
  }

  /** What the socket carried reads back as the messages, in order, none lost and none merged. */
  lemma {:induction false} StreamRoundTrip(messages: seq<seq<Byte>>)
    requires forall i | 0 <= i < |messages| :: |messages[i]| < 0x8000_0000_0000_0000
    ensures ReadStream(Stream(messages)) == Some(messages)
  {
    hide Frame, ReadFrame;
    if |messages| > 0 {
      FrameRoundTrip(messages[0], Stream(messages[1..]));
      StreamRoundTrip(messages[1..]);
      FrameNotEmpty(messages[0]);
      assert messages == [messages[0]] + messages[1..];
    }
  }

  lemma FrameNotEmpty(data: seq<Byte>)
    ensures |Frame(data)| > 0
  {
  }
}
