/**
 * `send_wol_packet`: the MAC text is stripped of ':' and '-', decoded the way Python's
 * `bytes.fromhex` decodes, checked to be six bytes, and expanded into the magic packet
 * (six 0xFF bytes, then the MAC sixteen times). The UDP send is an input: the error it raised, if any.
 */
module WakeOnLan {
  import opened Common
  import opened Devices

  newtype byte = x: int | 0 <= x < 256

  /** UDP port the magic packet goes to. */
  const WolPort: nat := 9

  /** The whitespace `bytes.fromhex` skips between byte pairs. */
  predicate IsHexSpace(c: char) {
    c == ' ' || c == '\t' || c == '\n' || c == '\U{B}' || c == '\U{C}' || c == '\r'
  }

  predicate IsHexDigit(c: char) {
    ('0' <= c <= '9') || ('a' <= c <= 'f') || ('A' <= c <= 'F')
  }

  function DigitValue(c: char): (v: nat)
    requires IsHexDigit(c)
    ensures v < 16
  {
    if '0' <= c <= '9' then c as int - '0' as int
    else if 'a' <= c <= 'f' then c as int - 'a' as int + 10
    else c as int - 'A' as int + 10
  }

  /** The hex digit for a value below 16, in upper or lower case. */
  function HexChar(v: nat, upper: bool): (c: char)
    requires v < 16
    ensures IsHexDigit(c) && DigitValue(c) == v
  {
    if v < 10 then ('0' as int + v) as char
    else if upper then ('A' as int + v - 10) as char
    else ('a' as int + v - 10) as char
  }

  /** `mac.replace(":", "").replace("-", "")` */
  function RemoveSeparators(s: string): (r: string)
    ensures |r| <= |s|
    ensures forall i :: 0 <= i < |r| ==> r[i] != ':' && r[i] != '-'
    ensures (forall i :: 0 <= i < |s| ==> s[i] != ':' && s[i] != '-') ==> r == s
  {
    if s == [] then []
    else (if s[0] == ':' || s[0] == '-' then [] else [s[0]]) + RemoveSeparators(s[1..])
  }

  /** Removing separators works piece by piece. */
  lemma {:induction false} RemoveSeparatorsAppend(a: string, b: string)
    ensures RemoveSeparators(a + b) == RemoveSeparators(a) + RemoveSeparators(b)
  {
    if a != [] {
      var head: string := if a[0] == ':' || a[0] == '-' then [] else [a[0]];
      assert (a + b)[0] == a[0];
      assert (a + b)[1..] == a[1..] + b;
      RemoveSeparatorsAppend(a[1..], b);
      calc {
        RemoveSeparators(a + b);
        head + RemoveSeparators(a[1..] + b);
        head + (RemoveSeparators(a[1..]) + RemoveSeparators(b));
        (head + RemoveSeparators(a[1..])) + RemoveSeparators(b);
        RemoveSeparators(a) + RemoveSeparators(b);
      }
    } else {
      assert a + b == b;
    }
  }

  /** What `bytes.fromhex` gives: the bytes, or the position of the offending character. */
  datatype Decoded = Bytes(bytes: seq<byte>) | BadChar(position: nat)

  /** The position of the first character outside ASCII, or |s| when there is none. */
  function FirstNonAscii(s: string): (k: nat)
    ensures k <= |s|
    ensures forall j :: 0 <= j < k ==> s[j] < '\U{80}'
    ensures k < |s| ==> s[k] >= '\U{80}'
  {
    if s == [] || s[0] >= '\U{80}' then 0 else 1 + FirstNonAscii(s[1..])
  }

  /** Decoding the pairs of an all-ASCII suffix `s` that starts at `offset` in the whole text: whitespace is
      skipped before a pair, never inside one. */
  function DecodePairs(s: string, offset: nat): (d: Decoded)
    ensures d.BadChar? ==> offset <= d.position <= offset + |s|
  {
    if s == [] then Bytes([])
    else if IsHexSpace(s[0]) then DecodePairs(s[1..], offset + 1)
    else if !IsHexDigit(s[0]) then BadChar(offset)
    else if |s| < 2 || !IsHexDigit(s[1]) then BadChar(offset + 1)
    else
      match DecodePairs(s[2..], offset + 2)
      case Bytes(rest) => Bytes([(16 * DigitValue(s[0]) + DigitValue(s[1])) as byte] + rest)
      case bad => bad
  }

  /** `bytes.fromhex(s)`: a non-ASCII character anywhere is reported first, at its own position. */
  function FromHex(s: string): (d: Decoded)
    ensures d.BadChar? ==> d.position <= |s|
  {
    var k := FirstNonAscii(s);
    if k < |s| then BadChar(k) else DecodePairs(s, 0)
  }

  /** The two hex digits of each byte, concatenated. */
  function HexPairs(bytes: seq<byte>, upper: bool): string {
    if bytes == [] then []
    else [HexChar(bytes[0] as nat / 16, upper), HexChar(bytes[0] as nat % 16, upper)] + HexPairs(bytes[1..], upper)
  }

  /** The usual written form of an address: hex pairs, in either case, joined by `sep`. */
  function FormatMac(bytes: seq<byte>, sep: char, upper: bool): string {
    if |bytes| <= 1 then HexPairs(bytes, upper)
    else HexPairs(bytes[..1], upper) + [sep] + FormatMac(bytes[1..], sep, upper)
  }

  lemma {:induction false} HexPairsAscii(bytes: seq<byte>, upper: bool)
    ensures |HexPairs(bytes, upper)| == 2 * |bytes|
    ensures forall i :: 0 <= i < |HexPairs(bytes, upper)| ==> IsHexDigit(HexPairs(bytes, upper)[i])
  {
    if bytes != [] {
      HexPairsAscii(bytes[1..], upper);
    }
  }

  /** Decoding undoes hex encoding, whatever the case of the digits. */
  lemma {:induction false} DecodeHexPairs(bytes: seq<byte>, upper: bool, offset: nat)
    ensures DecodePairs(HexPairs(bytes, upper), offset) == Bytes(bytes)
  {
    if bytes != [] {
      var s := HexPairs(bytes, upper);
      var hi, lo := bytes[0] as nat / 16, bytes[0] as nat % 16;
      assert s[0] == HexChar(hi, upper) && s[1] == HexChar(lo, upper);
      assert s[2..] == HexPairs(bytes[1..], upper);
      assert !IsHexSpace(s[0]);
      DecodeHexPairs(bytes[1..], upper, offset + 2);
      assert (16 * hi + lo) as byte == bytes[0];
      assert [bytes[0]] + bytes[1..] == bytes;
    }
  }

  lemma {:induction false} FormatMacStripped(bytes: seq<byte>, sep: char, upper: bool)
    requires sep == ':' || sep == '-'
    ensures RemoveSeparators(FormatMac(bytes, sep, upper)) == HexPairs(bytes, upper)
  {
    HexPairsAscii(bytes, upper);
    if |bytes| > 1 {
      HexPairsAscii(bytes[..1], upper);
      RemoveSeparatorsAppend(HexPairs(bytes[..1], upper) + [sep], FormatMac(bytes[1..], sep, upper));
      RemoveSeparatorsAppend(HexPairs(bytes[..1], upper), [sep]);
      FormatMacStripped(bytes[1..], sep, upper);
      assert HexPairs(bytes, upper) == HexPairs(bytes[..1], upper) + HexPairs(bytes[1..], upper);
    }
  }

  /** The decoded MAC, or the message of the ValueError raised for it: a decoding error, or "Invalid MAC"
      when the text decodes to some other number of bytes than six. */
  function ParseMac(mac: string): (r: Outcome<seq<byte>>)
    ensures r.Returned? <==> FromHex(RemoveSeparators(mac)).Bytes? && |FromHex(RemoveSeparators(mac)).bytes| == 6
    ensures r.Returned? ==> FromHex(RemoveSeparators(mac)) == Bytes(r.value)
    ensures FromHex(RemoveSeparators(mac)).Bytes? && |FromHex(RemoveSeparators(mac)).bytes| != 6 ==>
              r == Raised("Invalid MAC")
    ensures FromHex(RemoveSeparators(mac)).BadChar? ==>
              r == Raised("non-hexadecimal number found in fromhex() arg at position " +
                          NatToString(FromHex(RemoveSeparators(mac)).position))
  {
    match FromHex(RemoveSeparators(mac))
    case BadChar(p) => Raised("non-hexadecimal number found in fromhex() arg at position " + NatToString(p))
    case Bytes(b) => if |b| != 6 then Raised("Invalid MAC") else Returned(b)
  }

  /** Any six-byte address written in either case with ':' or '-' separators parses back to itself. */
  lemma ParseFormattedMac(bytes: seq<byte>, sep: char, upper: bool)
    requires |bytes| == 6 && (sep == ':' || sep == '-')
    ensures ParseMac(FormatMac(bytes, sep, upper)) == Returned(bytes)
  {
    FormatMacStripped(bytes, sep, upper);
    HexPairsAscii(bytes, upper);
    DecodeHexPairs(bytes, upper, 0);
    assert FirstNonAscii(HexPairs(bytes, upper)) == |HexPairs(bytes, upper)|;
  }

  /** `s * n` on bytes. */
  function Repeat(s: seq<byte>, n: nat): (r: seq<byte>)
    ensures |r| == n * |s|
  {
    if n == 0 then [] else s + Repeat(s, n - 1)
  }

  /** The k-th copy sits between the first k copies and the remaining ones. */
  lemma {:induction false} RepeatSplit(s: seq<byte>, n: nat, k: nat)
    requires k < n
    ensures Repeat(s, n) == Repeat(s, k) + s + Repeat(s, n - k - 1)
  {
    if k > 0 {
      RepeatSplit(s, n - 1, k - 1);
      assert Repeat(s, n) == s + Repeat(s, n - 1);
      assert Repeat(s, k) == s + Repeat(s, k - 1);
    }
  }

  /** `b"\xff" * 6 + mac_bytes * 16` */
  function MagicPacket(mac: seq<byte>): (p: seq<byte>)
    requires |mac| == 6
    ensures |p| == 102
    ensures p[..6] == [0xFF, 0xFF, 0xFF, 0xFF, 0xFF, 0xFF]
    ensures forall k :: 0 <= k < 16 ==> p[6 + 6 * k .. 12 + 6 * k] == mac
  {
    var p := Repeat([0xFF], 6) + Repeat(mac, 16);
    assert Repeat([0xFF], 6) == [0xFF, 0xFF, 0xFF, 0xFF, 0xFF, 0xFF];
    forall k | 0 <= k < 16
      ensures p[6 + 6 * k .. 12 + 6 * k] == mac
    {
      PacketSlot(Repeat([0xFF], 6), mac, 16, k);
    }
    p
  }

  /** After a six-byte prefix, the k-th copy of a six-byte address occupies bytes 6 + 6k up to 12 + 6k. */
  lemma PacketSlot(prefix: seq<byte>, mac: seq<byte>, n: nat, k: nat)
    requires |prefix| == 6 && |mac| == 6 && k < n
    ensures (prefix + Repeat(mac, n))[6 + 6 * k .. 12 + 6 * k] == mac
  {
    RepeatSplit(mac, n, k);
    var head := prefix + Repeat(mac, k);
    assert |head| == 6 + 6 * k;
    assert prefix + Repeat(mac, n) == head + mac + Repeat(mac, n - k - 1);
  }

  /** What `send_wol_packet` returns, and the packet it put on the network (None when it sent nothing). */
  datatype WolResult = WolResult(ok: bool, message: string, packet: Option<seq<byte>>)

  /** How Python's f-string shows a field value. */
  function Show(v: Value): string {
    match v
    case Null => "None"
    case Str(s) => s
  }

  /** `send_wol_packet(mac, broadcast)`, where `sendError` is what the broadcast send raised. */
  function SendWolPacket(mac: string, broadcast: Value, sendError: Option<string>): (r: WolResult)
    ensures r.ok <==> r.packet.Some?
    ensures r.packet.Some? <==> ParseMac(mac).Returned? && sendError.None?
    ensures r.packet.Some? ==>
              r.packet.value == MagicPacket(ParseMac(mac).value) && |r.packet.value| == 102 &&
              r.message == "WOL packet sent to " + Show(broadcast)
    ensures ParseMac(mac).Raised? ==> r.message == "Error sending WOL packet: " + ParseMac(mac).error
    ensures !r.ok ==> "Error sending WOL packet: " <= r.message
  {
    match ParseMac(mac)
    case Raised(e) => WolResult(false, "Error sending WOL packet: " + e, None)
    case Returned(bytes) =>
      match sendError
      case Some(e) => WolResult(false, "Error sending WOL packet: " + e, None)
      case None => WolResult(true, "WOL packet sent to " + Show(broadcast), Some(MagicPacket(bytes)))
  }
}
