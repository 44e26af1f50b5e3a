/**
 * Identifiers of CursorToMessage: the Message-ID derived from a message's
 * date, address and type (createMessageId), and the random per-install
 * token used in the References header (generateReferenceValue).
 */
module Identity {
  import opened JavaText
  import opened Collaborators

  /** What follows the hex digest in MSG_ID_TEMPLATE "<%s@sms-backup-plus.local>". */
  const MSG_ID_SUFFIX := "@sms-backup-plus.local>"

  /** The number of characters generateReferenceValue appends. */
  const REFERENCE_LENGTH := 24

  // ----------------------------------------------------------- hex digits

  predicate IsLowerHex(c: char) {
    '0' <= c <= '9' || 'a' <= c <= 'f'
  }

  function HexDigit(v: int): (c: char)
    requires 0 <= v < 16
    ensures IsLowerHex(c)
  {
    if v < 10 then ('0' as int + v) as char else ('a' as int + v - 10) as char
  }

  function HexValue(c: char): (v: int)
    requires IsLowerHex(c)
    ensures 0 <= v < 16 && HexDigit(v) == c
  {
    if c <= '9' then c as int - '0' as int else c as int - 'a' as int + 10
  }

  /** String.format("%02x", b): two lowercase hex digits of the unsigned byte. */
  function HexByte(b: byte): (r: string)
    ensures |r| == 2 && IsLowerHex(r[0]) && IsLowerHex(r[1])
    ensures HexValue(r[0]) * 16 + HexValue(r[1]) == b as int
  {
    [HexDigit(b as int / 16), HexDigit(b as int % 16)]
  }

  /** The StringBuilder loop of createMessageId, as a value: each byte's two digits in order. */
  function Hex(bytes: seq<byte>): (r: string)
    ensures |r| == 2 * |bytes|
    ensures forall i :: 0 <= i < |r| ==> IsLowerHex(r[i])
  {
    if bytes == [] then "" else Hex(bytes[..|bytes| - 1]) + HexByte(bytes[|bytes| - 1])
  }

  /** Reads a string of lowercase hex digit pairs back into bytes. */
  function Unhex(s: string): (r: seq<byte>)
    requires |s| % 2 == 0
    requires forall i :: 0 <= i < |s| ==> IsLowerHex(s[i])
    ensures 2 * |r| == |s|
  {
    if s == [] then []
    else Unhex(s[..|s| - 2]) + [(HexValue(s[|s| - 2]) * 16 + HexValue(s[|s| - 1])) as byte]
  }

  /** The hex text determines the bytes it was made from. */
  lemma {:induction false} UnhexHex(bytes: seq<byte>)
    ensures Unhex(Hex(bytes)) == bytes
  {
    if bytes != [] {
      var h := Hex(bytes);
      var n := |bytes| - 1;
      assert h[..|h| - 2] == Hex(bytes[..n]);
      assert h[|h| - 2..] == HexByte(bytes[n]);
      UnhexHex(bytes[..n]);
      assert bytes == bytes[..n] + [bytes[n]];
    }
  }

  // --------------------------------------------------------- Message-ID

  /**
   * The bytes createMessageId feeds to MD5: the UTF-8 of the decimal date,
   * then of the address, then of the decimal type, with no separators.
   */
  function DigestInput(sent: int, address: string, msgType: int): seq<byte> {
    Utf8(IntToDecimal(sent)) + Utf8(address) + Utf8(IntToDecimal(msgType))
  }

  /** The Message-ID header value of a message sent at `sent` to or from `address` with type `msgType`. */
  function MessageId(md5: Md5, sent: int, address: string, msgType: int): string {
    "<" + Hex(md5(DigestInput(sent, address, msgType))) + MSG_ID_SUFFIX
  }

  /**
   * createMessageId: hex-encode the MD5 of the date, address and type into
   * the Message-ID template.
   */
  method CreateMessageId(md5: Md5, sent: int, address: string, msgType: int) returns (id: string)
    ensures id == MessageId(md5, sent, address, msgType)
  {
    var digest := md5(Utf8(IntToDecimal(sent)) + Utf8(address) + Utf8(IntToDecimal(msgType)));
    var sb := "";
    var i := 0;
    while i < |digest|
      invariant 0 <= i <= |digest|
      invariant sb == Hex(digest[..i])
    {
      assert digest[..i + 1][..i] == digest[..i];
      sb := sb + HexByte(digest[i]);
      i := i + 1;
    }
    assert digest[..i] == digest;
    id := "<" + sb + MSG_ID_SUFFIX;
  }

  /**
   * Every Message-ID is 56 characters: '<', 32 lowercase hex digits that
   * spell out exactly the 16 digest bytes, and the fixed domain part.
   */
  lemma MessageIdFormat(md5: Md5, sent: int, address: string, msgType: int)
    ensures var id := MessageId(md5, sent, address, msgType);
      && |id| == 56
      && id[0] == '<'
      && id[33..] == MSG_ID_SUFFIX
      && var h := id[1..33];
         && (forall i :: 0 <= i < |h| ==> IsLowerHex(h[i]))
         && Unhex(h) == md5(DigestInput(sent, address, msgType))
  {
    var d := md5(DigestInput(sent, address, msgType));
    var id := MessageId(md5, sent, address, msgType);
    assert id[1..33] == Hex(d);
    UnhexHex(d);
  }

  /** The decimal texts of the dates and type used below. */
  lemma DecimalTexts()
    ensures IntToDecimal(1000) == "1000" && IntToDecimal(10005) == "10005" && IntToDecimal(1) == "1"
  {
    assert NatToDecimal(1) == "1";
    assert NatToDecimal(10) == "10";
    assert NatToDecimal(100) == "100";
    assert NatToDecimal(1000) == "1000";
    assert NatToDecimal(10005) == "10005";
  }

  /**
   * Because the three parts are concatenated without separators, different
   * (date, address, type) triples can share a Message-ID: a date of 1000 with
   * address "5551234" and a date of 10005 with address "551234".
   */
  lemma MessageIdIgnoresFieldBoundaries(md5: Md5)
    ensures MessageId(md5, 1000, "5551234", 1) == MessageId(md5, 10005, "551234", 1)
  {
    DecimalTexts();
    var joined := Utf8("10005" + "551234") + Utf8("1");
    assert DigestInput(1000, "5551234", 1) == joined by {
      Utf8Append("1000", "5551234");
      assert "1000" + "5551234" == "10005" + "551234";
    }
    assert DigestInput(10005, "551234", 1) == joined by {
      Utf8Append("10005", "551234");
    }
  }

  // ------------------------------------------------------ reference token

  /** Integer.toString(d, 36) for a single base-36 digit. */
  function Base36Digit(d: int): (c: char)
    requires 0 <= d < 36
    ensures d < 10 ==> IsDigit(c) && c as int == '0' as int + d
    ensures d >= 10 ==> 'a' <= c <= 'z' && c as int == 'a' as int + d - 10
  {
    if d < 10 then ('0' as int + d) as char else ('a' as int + d - 10) as char
  }

  /** A character generateReferenceValue can produce: a base-36 digit other than 'z'. */
  predicate IsReferenceChar(c: char) {
    '0' <= c <= '9' || 'a' <= c <= 'y'
  }

  predicate IsReferenceToken(s: string) {
    |s| == REFERENCE_LENGTH && forall i :: 0 <= i < |s| ==> IsReferenceChar(s[i])
  }

  /**
   * generateReferenceValue: 24 base-36 digits of (int)(Math.random() * 35),
   * each therefore in 0..34, so 'z' never occurs. The random draw is a
   * nondeterministic choice. The source's e-mail parameter is unused.
   */
  method GenerateReferenceValue() returns (token: string)
    ensures IsReferenceToken(token)
    ensures 'z' !in token
  {
    var sb := "";
    for i := 0 to REFERENCE_LENGTH
      invariant |sb| == i
      invariant forall j :: 0 <= j < i ==> IsReferenceChar(sb[j])
    {
      var d :| 0 <= d < 35;
      sb := sb + [Base36Digit(d)];
    }
    token := sb;
  }
}
